/**
 * Who gets a vote, exactly, and what protects a leader that is heard: a member that
 * has just heard from its leader grants no pre-vote, so that nobody opens an election
 * against a leader a quorum hears.
 */
module RaftTrust {
  import opened Model
  import opened RaftSpec
  import G = RaftProgress
  import L = RaftLocal
  import T = RaftRetries

  // ---- the answers ------------------------------------------------------

  /** The asker's last entry is of a later term than the member's, or of the same and no earlier. */
  predicate UpToDate(s: State, req: Message)
    requires req.RequestVote?
  {
    var lastTerm := if s.log == [] then s.baseTerm else s.log[|s.log| - 1].term;
    req.lastLogTerm > lastTerm || (req.lastLogTerm == lastTerm && req.lastLogIndex >= s.baseIndex + |s.log|)
  }

  /** A leader is known, and was heard from less than the shortest election timeout ago. */
  predicate Trusts(s: State) { s.leaderId.Some? && s.electionElapsed < s.cfg.electionMinTicks }

  /** A peer asks for a vote in its own name. */
  predicate Asks(s: State, from: NodeId, req: Message) {
    req.RequestVote? && from in s.peers && req.candidateId == from
  }

  /**
   * A pre-vote is granted exactly to an up-to-date asker of a positive term no earlier than
   * the member's, and only while the member trusts no leader. It changes nothing.
   */
  lemma PreVoteExactly(s: State, from: NodeId, req: Message)
    requires Asks(s, from, req) && req.preVote
    ensures var granted := req.term > 0 && req.term >= s.currentTerm && UpToDate(s, req) && !Trusts(s);
            Step(s, from, req) == s.(out := s.out + [Addressed(from, RequestVoteResp(s.currentTerm, granted, true))])
  {
  }

  /**
   * A vote is granted exactly to an up-to-date asker of a positive term, if that is later
   * than the member's, or the same and the vote is free or already the asker's. It is
   * recorded, to be saved; otherwise at most a later term is taken in.
   */
  lemma VoteExactly(s: State, from: NodeId, req: Message)
    requires Asks(s, from, req) && !req.preVote
    ensures var r := Step(s, from, req);
            var later := req.term > s.currentTerm;
            var granted := req.term > 0 && UpToDate(s, req)
                           && (later || (req.term == s.currentTerm && (s.votedFor.None? || s.votedFor == Some(from))));
            && r.out == s.out + [Addressed(from, RequestVoteResp(r.currentTerm, granted, false))]
            && r.currentTerm == Max(s.currentTerm, req.term)
            && r.votedFor == (if granted then Some(from) else if later then None else s.votedFor)
            && r.log == s.log && r.commitIndex == s.commitIndex
            && (granted ==> r.dirty && r.electionElapsed == 0) && (!granted && !later ==> r == s.(out := r.out))
  {
    hide UpToDate, LogOk, AnswerVote, Adopt;
    var a := Adopt(s, req.term);
    AdoptKeepsTest(s, req);
    if req.term > 0 {
      AnswersVote(a, from, req);
      assert Step(s, from, req) == AnswerVote(a, from, req);
    }
  }

  lemma AnswersVote(a: State, from: NodeId, req: Message)
    requires req.RequestVote? && !req.preVote && req.term <= a.currentTerm
    ensures var r := AnswerVote(a, from, req);
            var granted := UpToDate(a, req) && req.term == a.currentTerm
                           && (a.votedFor.None? || a.votedFor == Some(from));
            && r.out == a.out + [Addressed(from, RequestVoteResp(a.currentTerm, granted, false))]
            && r.currentTerm == a.currentTerm && r.votedFor == (if granted then Some(from) else a.votedFor)
            && r.log == a.log && r.commitIndex == a.commitIndex
            && (granted ==> r.dirty && r.electionElapsed == 0) && (!granted ==> r == a.(out := r.out))
  {
    hide UpToDate, LogOk, Timeout;
    TestIs(a, req);
  }

  lemma TestIs(s: State, req: Message)
    requires req.RequestVote?
    ensures LogOk(s, req.lastLogIndex, req.lastLogTerm) <==> UpToDate(s, req)
  {
  }

  lemma AdoptKeepsTest(s: State, req: Message)
    requires req.RequestVote?
    ensures UpToDate(Adopt(s, req.term), req) == UpToDate(s, req)
    ensures var a := Adopt(s, req.term);
            && a.currentTerm == Max(s.currentTerm, req.term) && a.out == s.out
            && a.log == s.log && a.commitIndex == s.commitIndex && (req.term <= s.currentTerm ==> a == s)
            && a.votedFor == (if req.term > s.currentTerm then None else s.votedFor)
  {
    hide Timeout;
  }

  /** Nobody but a peer speaking for itself moves the engine at all. */
  lemma OutsidersIgnored(s: State, from: NodeId, msg: Message)
    requires from !in s.peers || (msg.RequestVote? && msg.candidateId != from)
             || (msg.AppendEntries? && msg.leaderId != from) || (msg.InstallSnapshot? && msg.leaderId != from)
    ensures Step(s, from, msg) == s
  {
    hide HandleRequestVote, HandleVoteResp, HandleAppend, HandleAppendResp, HandleInstallSnapshot,
         HandleInstallSnapshotResp;
  }

  // ---- trust lasts ------------------------------------------------------

  /** The call delivers a well-formed append or snapshot of at least the member's term from a peer. */
  predicate HearsLeader(s: State, c: L.Call) {
    && c.CallStep? && c.from in s.peers && c.msg.term >= s.currentTerm
    && ((c.msg.AppendEntries? && c.msg.leaderId == c.from && EntriesAreContiguous(c.msg))
        || (c.msg.InstallSnapshot? && c.msg.leaderId == c.from && SnapshotMetadataIsValid(c.msg)))
  }

  /** A follower that knows its leader, `ticks` ticks after it last heard from it at the earliest. */
  predicate Following(s: State, term: nat, ticks: nat) {
    && s.role == Follower && s.currentTerm == term && s.leaderId.Some? && s.electionElapsed <= ticks
    && s.cfg.electionMinTicks <= s.electionTimeout
  }

  lemma Heard(s: State, c: L.Call)
    requires HearsLeader(s, c)
    ensures var r := L.Perform(s, c);
            && Following(r, c.msg.term, 0) && r.currentTerm == c.msg.term && r.leaderId == Some(c.from)
            && r.cfg == s.cfg && r.peers == s.peers
  {
    hide AcceptAppend, AcceptSnapshot, EntriesAreContiguous, SnapshotMetadataIsValid, BecomeFollower;
    var a := BecomeFollower(Adopt(s, c.msg.term), c.msg.term, Some(c.from));
    HeardFollows(s, c.msg.term, c.from);
    if c.msg.AppendEntries? {
      G.AcceptAppendFrame(a, c.from, c.msg);
    } else {
      SnapshotFrame(a, c.from, c.msg);
    }
  }

  lemma HeardFollows(s: State, term: nat, from: NodeId)
    requires term >= s.currentTerm
    ensures var a := BecomeFollower(Adopt(s, term), term, Some(from));
            Following(a, term, 0) && a.leaderId == Some(from) && a.cfg == s.cfg && a.peers == s.peers
    ensures Adopt(s, term).currentTerm == term
  {
  }

  lemma SnapshotFrame(s: State, from: NodeId, req: Message)
    requires req.InstallSnapshot?
    ensures var r := AcceptSnapshot(s, from, req);
            && r.role == s.role && r.currentTerm == s.currentTerm && r.leaderId == s.leaderId && r.cfg == s.cfg
            && r.electionElapsed == s.electionElapsed && r.electionTimeout == s.electionTimeout && r.peers == s.peers
  {
    hide TermAt;
  }

  /** How many of the calls are ticks. */
  function TickCount(calls: seq<L.Call>): nat {
    if calls == [] then 0
    else TickCount(calls[..|calls| - 1]) + if calls[|calls| - 1].CallTick? then 1 else 0
  }

  /** A call leaves a follower following, unless the term moves on. */
  ghost predicate Stays(s: State, r: State, ticks: nat) {
    && r.cfg == s.cfg && r.peers == s.peers && s.currentTerm <= r.currentTerm
    && (r.currentTerm == s.currentTerm ==> Following(r, s.currentTerm, ticks))
  }

  lemma FollowerTick(s: State, ticks: nat)
    requires Following(s, s.currentTerm, ticks) && ticks + 1 < s.cfg.electionMinTicks
    ensures Stays(s, Tick(s), ticks + 1)
  {
    hide StartPreElection;
  }

  lemma FollowerVote(s: State, from: NodeId, req: Message, ticks: nat)
    requires Following(s, s.currentTerm, ticks) && req.RequestVote?
    ensures Stays(s, HandleRequestVote(s, from, req), ticks)
  {
    hide LogOk, AnswerVote, BecomeFollower;
    if req.term > s.currentTerm && !req.preVote {
      LaterTerm(s, req.term);
      T.AnswerVoteFrame(Adopt(s, req.term), from, req);
    } else {
      FollowerAnswers(s, from, req, ticks);
    }
  }

  lemma LaterTerm(s: State, term: nat)
    requires term > s.currentTerm
    ensures var a := BecomeFollower(s, term, None); a.currentTerm == term && a.cfg == s.cfg && a.peers == s.peers
  {
    hide Timeout;
  }

  lemma FollowerAnswers(s: State, from: NodeId, req: Message, ticks: nat)
    requires Following(s, s.currentTerm, ticks) && req.RequestVote?
    ensures Stays(s, AnswerVote(s, from, req), ticks)
  {
    hide LogOk;
    var r := AnswerVote(s, from, req);
    var b := ResetTimer(s.(votedFor := Some(from), dirty := true));
    assert r == s.(out := r.out) || r == b.(out := r.out);
  }

  lemma FollowerAppend(s: State, from: NodeId, req: Message, ticks: nat)
    requires Following(s, s.currentTerm, ticks) && req.AppendEntries?
    ensures Stays(s, HandleAppend(s, from, req), ticks)
  {
    hide AcceptAppend, EntriesAreContiguous;
    var a := BecomeFollower(Adopt(s, req.term), req.term, Some(from));
    G.AcceptAppendFrame(a, from, req);
  }

  lemma FollowerSnapshot(s: State, from: NodeId, req: Message, ticks: nat)
    requires Following(s, s.currentTerm, ticks) && req.InstallSnapshot?
    ensures Stays(s, HandleInstallSnapshot(s, from, req), ticks)
  {
    hide AcceptSnapshot, SnapshotMetadataIsValid;
    var a := BecomeFollower(Adopt(s, req.term), req.term, Some(from));
    SnapshotFrame(a, from, req);
  }

  lemma FollowerReply(s: State, from: NodeId, msg: Message, ticks: nat)
    requires Following(s, s.currentTerm, ticks)
    requires msg.RequestVoteResp? || msg.AppendEntriesResp? || msg.InstallSnapshotResp?
    ensures Stays(s, Step(s, from, msg), ticks)
  {
    hide RecordMatch, Rewind, MaybeWinElection, MaybeWinPreElection, BecomeFollower;
    if msg.term > s.currentTerm {
      LaterTerm(s, msg.term);
    }
  }

  lemma FollowerStep(s: State, from: NodeId, msg: Message, ticks: nat)
    requires Following(s, s.currentTerm, ticks)
    ensures Stays(s, Step(s, from, msg), ticks)
  {
    hide HandleRequestVote, HandleAppend, HandleInstallSnapshot, Stays;
    Unmoved(s, ticks);
    match msg
    case RequestVote(_, _, _, _, _) => FollowerVote(s, from, msg, ticks);
    case AppendEntries(_, _, _, _, _, _) => FollowerAppend(s, from, msg, ticks);
    case InstallSnapshot(_, _, _, _, _) => FollowerSnapshot(s, from, msg, ticks);
    case _ => FollowerReply(s, from, msg, ticks);
  }

  lemma Unmoved(s: State, ticks: nat)
    requires Following(s, s.currentTerm, ticks)
    ensures Stays(s, s, ticks)
  {
  }

  lemma FollowerCall(s: State, c: L.Call, ticks: nat)
    requires Following(s, s.currentTerm, ticks) && (c.CallTick? ==> ticks + 1 < s.cfg.electionMinTicks)
    ensures Stays(s, L.Perform(s, c), if c.CallTick? then ticks + 1 else ticks)
  {
    hide Tick, Step, Propose, Compact, Stays;
    match c
    case CallTick => FollowerTick(s, ticks);
    case CallStep(from, msg) => FollowerStep(s, from, msg, ticks);
    case CallPropose(command) =>
      assert Propose(s, command) == s by { OnlyLeadersPropose(s, command); }
      Unmoved(s, ticks);
    case CallCompact(index, data) => FollowerCompact(s, index, data, ticks);
  }

  lemma OnlyLeadersPropose(s: State, command: Command)
    requires s.role != Leader
    ensures Propose(s, command) == s
  {
  }

  lemma FollowerCompact(s: State, index: nat, data: Replicated, ticks: nat)
    requires Following(s, s.currentTerm, ticks)
    ensures Stays(s, Compact(s, index, data), ticks)
  {
    hide TermAt;
  }

  lemma {:induction false} KeepsFollowing(x: L.Saved, term: nat, calls: seq<L.Call>)
    requires L.Valid(x.state) && x.disk == Durable(x.state)
    requires x.state.currentTerm == term && Following(x.state, term, 0)
    requires TickCount(calls) < x.state.cfg.electionMinTicks
    ensures var r := L.PerformAll(x, calls).state;
            && r.cfg == x.state.cfg && r.peers == x.state.peers && r.currentTerm >= term
            && (r.currentTerm == term ==> Following(r, term, TickCount(calls)))
  {
    hide L.PerformAndSave, L.Valid, Following;
    if calls != [] {
      var k := |calls| - 1;
      KeepsFollowing(x, term, calls[..k]);
      L.RobustValid(x, calls[..k]);
      CallKeepsFollowing(L.PerformAll(x, calls[..k]), term, calls[k], TickCount(calls[..k]));
    }
  }

  lemma CallKeepsFollowing(x: L.Saved, term: nat, c: L.Call, ticks: nat)
    requires L.Valid(x.state) && x.state.currentTerm >= term
    requires x.state.currentTerm == term ==> Following(x.state, term, ticks)
    requires c.CallTick? ==> ticks + 1 < x.state.cfg.electionMinTicks
    ensures var r := L.PerformAndSave(x, c).state;
            && r.cfg == x.state.cfg && r.peers == x.state.peers && r.currentTerm >= term
            && (r.currentTerm == term ==> Following(r, term, if c.CallTick? then ticks + 1 else ticks))
  {
    hide L.Perform, L.Valid;
    var s := x.state;
    L.PerformSound(s, c);
    SoundMoves(s, L.Perform(s, c));
    if s.currentTerm == term {
      FollowerCall(s, c, ticks);
    }
  }

  lemma SoundMoves(s: State, r: State)
    requires L.Valid(s) && L.Sound(s, r)
    ensures r.cfg == s.cfg && r.peers == s.peers && r.currentTerm >= s.currentTerm
  {
    hide L.ValidPersisted;
  }

  /**
   * No pre-vote while the leader is heard: in any run with arbitrary messages, after a
   * well-formed append or snapshot of a peer, and until `electionMinTicks` ticks later, a
   * member that is still in that term refuses every pre-vote.
   */
  lemma PreVoteWithheld(id: NodeId, peers: seq<NodeId>, cfg: Config, draws: nat -> nat, p: Persisted,
                        calls: seq<L.Call>, c: L.Call, more: seq<L.Call>, from: NodeId, req: Message)
    requires L.ValidPersisted(p) && TickCount(more) < cfg.electionMinTicks
    requires var x := L.PerformAll(L.Saved(New(id, peers, cfg, draws, p), p), calls);
             var r := L.PerformAll(x, [c] + more).state;
             c.CallStep? && HearsLeader(x.state, c) && r.currentTerm == c.msg.term && Asks(r, from, req) && req.preVote
    ensures var x := L.PerformAll(L.Saved(New(id, peers, cfg, draws, p), p), calls);
            var r := L.PerformAll(x, [c] + more).state;
            Step(r, from, req) == r.(out := r.out + [Addressed(from, RequestVoteResp(r.currentTerm, false, true))])
  {
    hide L.ValidPersisted, L.Perform, L.PerformAll, HearsLeader, L.Valid, Following;
    var start := L.Saved(New(id, peers, cfg, draws, p), p);
    NewIs(id, peers, cfg, draws, p);
    L.RobustValid(start, calls);
    KeepsConfig(start, calls);
    var x := L.PerformAll(start, calls);
    Heard(x.state, c);
    OneCall(x, c, more);
    var y := L.PerformAndSave(x, c);
    L.PerformAndSaveForward(x, c);
    TakenFollows(L.Perform(x.state, c), c.msg.term);
    KeepsFollowing(y, c.msg.term, more);
    var r := L.PerformAll(y, more).state;
    FollowingTrusts(r, c.msg.term, TickCount(more));
    PreVoteExactly(r, from, req);
  }

  lemma NewIs(id: NodeId, peers: seq<NodeId>, cfg: Config, draws: nat -> nat, p: Persisted)
    requires L.ValidPersisted(p)
    ensures var s := New(id, peers, cfg, draws, p); L.Valid(s) && Durable(s) == p && s.cfg == cfg
  {
    hide Timeout;
  }

  lemma {:induction false} KeepsConfig(x: L.Saved, calls: seq<L.Call>)
    requires L.Valid(x.state) && x.disk == Durable(x.state)
    ensures L.PerformAll(x, calls).state.cfg == x.state.cfg
  {
    hide L.Perform, L.Valid;
    if calls != [] {
      var k := |calls| - 1;
      KeepsConfig(x, calls[..k]);
      L.RobustValid(x, calls[..k]);
      var s := L.PerformAll(x, calls[..k]).state;
      L.PerformSound(s, calls[k]);
      SoundMoves(s, L.Perform(s, calls[k]));
    }
  }

  lemma {:induction false} OneCall(x: L.Saved, c: L.Call, more: seq<L.Call>)
    ensures L.PerformAll(x, [c] + more) == L.PerformAll(L.PerformAndSave(x, c), more)
  {
    hide L.PerformAndSave;
    if more == [] {
      assert [c] + more == [c] && [c][..0] == [];
      assert L.PerformAll(x, []) == x;
    } else {
      var k := |more| - 1;
      OneCall(x, c, more[..k]);
      assert ([c] + more)[..k + 1] == [c] + more[..k];
    }
  }

  lemma TakenFollows(s: State, term: nat)
    requires Following(s, term, 0)
    ensures var r := TakeReady(s).1;
            Following(r, term, 0) && r.currentTerm == term && r.cfg == s.cfg && r.peers == s.peers
  {
  }

  lemma FollowingTrusts(s: State, term: nat, ticks: nat)
    requires Following(s, term, ticks) && ticks < s.cfg.electionMinTicks
    ensures Trusts(s)
  {
  }
}
