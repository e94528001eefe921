/**
 * The other half of check-quorum: a leader that is heard stays. Over every run, a tick
 * takes a member out of office exactly if, in the window that ends with it, fewer than
 * a majority counting itself were heard from.
 */
module RaftHearing {
  import opened Model
  import opened RaftSpec
  import B = RaftBallots
  import C = RaftCluster
  import G = RaftProgress
  import L = RaftLocal
  import R = RaftRetries
  import T = RaftTrust

  /** The call delivers an answer to an append or a snapshot, in the member's own term, from a peer. */
  predicate Answers(s: State, c: L.Call) {
    && c.CallStep? && c.from in s.peers && c.msg.term == s.currentTerm
    && (c.msg.AppendEntriesResp? || c.msg.InstallSnapshotResp?)
  }

  /** A check-quorum window of a leader so far: who has answered, how many ticks ago it began, and how long it is. */
  datatype Window = Window(heard: set<NodeId>, ticks: nat, length: nat)

  /** The member leads the same term before and after. */
  predicate LeadsOn(s: State, r: State) { s.role == Leader && r.role == Leader && r.currentTerm == s.currentTerm }

  /** The present window: it begins with the office, and anew whenever it has run its length. */
  ghost function WindowOf(x: L.Saved, calls: seq<L.Call>): Window {
    var r := L.PerformAll(x, calls).state;
    if calls == [] then Window({}, 0, r.electionTimeout)
    else
      var front, c := calls[..|calls| - 1], calls[|calls| - 1];
      var s, w := L.PerformAll(x, front).state, WindowOf(x, front);
      if !LeadsOn(s, r) then Window({}, 0, r.electionTimeout)
      else if c.CallTick? then
        if w.ticks + 1 < w.length then w.(ticks := w.ticks + 1) else Window({}, 0, r.electionTimeout)
      else if Answers(s, c) then w.(heard := w.heard + {c.from})
      else w
  }

  /** What the leader itself keeps of its window. */
  predicate Keeps(s: State, w: Window) {
    && s.ackedSinceCheck == w.heard && s.electionElapsed == w.ticks && s.electionTimeout == w.length
  }

  // ---- single calls -----------------------------------------------------

  /** `r` is `s` as far as its window goes. */
  predicate SameWindow(s: State, r: State) {
    && r.ackedSinceCheck == s.ackedSinceCheck && r.electionElapsed == s.electionElapsed
    && r.electionTimeout == s.electionTimeout && r.role == s.role && r.currentTerm == s.currentTerm
  }

  /** Where a leader's window stands after a call. */
  ghost predicate Turns(s: State, c: L.Call, r: State) {
    && (r.role == Leader && !LeadsOn(s, r) ==> r.ackedSinceCheck == {} && r.electionElapsed == 0)
    && (LeadsOn(s, r) && c.CallTick? ==>
          if s.electionElapsed + 1 < s.electionTimeout
          then r.ackedSinceCheck == s.ackedSinceCheck && r.electionElapsed == s.electionElapsed + 1
               && r.electionTimeout == s.electionTimeout
          else r.ackedSinceCheck == {} && r.electionElapsed == 0)
    && (LeadsOn(s, r) && !c.CallTick? ==>
          && r.ackedSinceCheck == (if Answers(s, c) then s.ackedSinceCheck + {c.from} else s.ackedSinceCheck)
          && r.electionElapsed == s.electionElapsed && r.electionTimeout == s.electionTimeout)
  }

  lemma OutOfOffice(s: State, c: L.Call, r: State)
    requires r.role != Leader
    ensures Turns(s, c, r)
  {
  }

  lemma Unchanged(s: State, c: L.Call, r: State)
    requires SameWindow(s, r) && !c.CallTick? && !Answers(s, c)
    ensures Turns(s, c, r)
  {
  }

  lemma {:induction false} SendAppendsSame(s: State, ps: seq<NodeId>)
    ensures SameWindow(s, SendAppends(s, ps))
  {
  }

  lemma OfficeTurns(s: State)
    ensures var r := BecomeLeader(s); r.role == Leader && r.ackedSinceCheck == {} && r.electionElapsed == 0
  {
    hide SendAppends, Timeout, AllAt;
  }

  lemma ElectionTurns(s: State)
    ensures var r := StartElection(s);
            && r.currentTerm > s.currentTerm
            && (r.role == Leader ==> r.ackedSinceCheck == {} && r.electionElapsed == 0)
  {
    hide BecomeLeader, SendAll, Timeout;
    var a := Campaigning(s);
    var b := SendAll(a, a.peers, RequestVote(a.currentTerm, a.id, LastIndex(a), LastTerm(a), false));
    OfficeTurns(b);
    OfficeTerm(b);
  }

  lemma OfficeTerm(s: State)
    ensures BecomeLeader(s).currentTerm == s.currentTerm
  {
    hide SendAppends, Timeout, AllAt;
  }

  lemma WaitTurns(s: State)
    requires s.role != Leader
    ensures Turns(s, L.CallTick, Tick(s))
  {
    hide StartElection, SendAll, Timeout;
    var a := s.(electionElapsed := s.electionElapsed + 1);
    var b := ResetTimer(a).(role := PreCandidate, votes := {s.id});
    ElectionTurns(SendAll(b, b.peers, RequestVote(b.currentTerm + 1, b.id, LastIndex(b), LastTerm(b), true)));
  }

  /** Whether the window ends with the next tick, and whether a majority, itself included, has answered. */
  predicate Ends(w: Window) { w.ticks + 1 >= w.length }

  predicate Majority(s: State, w: Window) { 2 * (|w.heard| + 1) > |s.peers| + 1 }

  /** A leader's tick: it stays unless its window ends without a majority. */
  lemma LeaderTick(s: State, w: Window)
    requires s.role == Leader && Keeps(s, w)
    ensures var r := Tick(s);
            && r.currentTerm == s.currentTerm && r.votedFor == s.votedFor
            && (if Ends(w) && !Majority(s, w) then r.role == Follower && r.leaderId.None?
                else r.role == Leader && r.leaderId == s.leaderId)
            && Turns(s, L.CallTick, r)
  {
    hide Heartbeat;
    L.HeartbeatFrame(s);
    CheckTurns(s, Heartbeat(s), w);
  }

  lemma CheckTurns(s: State, a: State, w: Window)
    requires s.role == Leader && Keeps(s, w)
    requires a == s.(heartbeatElapsed := a.heartbeatElapsed, out := a.out, snapshotInflight := a.snapshotInflight)
    ensures var r := CheckQuorum(a);
            && r.currentTerm == s.currentTerm && r.votedFor == s.votedFor
            && (if Ends(w) && !Majority(s, w) then r.role == Follower && r.leaderId.None?
                else r.role == Leader && r.leaderId == s.leaderId)
            && Turns(s, L.CallTick, r)
  {
    hide BecomeFollower, ResetTimer;
    var b := a.(electionElapsed := a.electionElapsed + 1, ackedSinceCheck := {});
    ResetKeeps(b);
    FollowerKeeps(b);
  }

  lemma ResetKeeps(s: State)
    ensures var r := ResetTimer(s);
            r == s.(electionElapsed := 0, electionTimeout := r.electionTimeout, drawn := r.drawn)
  {
  }

  lemma FollowerKeeps(s: State)
    ensures var r := BecomeFollower(s, s.currentTerm, None);
            r.currentTerm == s.currentTerm && r.votedFor == s.votedFor && r.role == Follower && r.leaderId.None?
  {
    hide Timeout;
  }

  lemma FollowerTurns(s: State, c: L.Call, term: nat, leader: Option<NodeId>)
    ensures Turns(s, c, BecomeFollower(s, term, leader)) && BecomeFollower(s, term, leader).role == Follower
  {
    hide Timeout;
  }

  lemma AnswerTurns(s: State, c: L.Call)
    requires c.CallStep? && c.msg.RequestVote? && (s.role == Leader ==> s.votedFor == Some(s.id)) && c.from != s.id
    ensures Turns(s, c, HandleRequestVote(s, c.from, c.msg))
  {
    hide AnswerVote, BecomeFollower, Turns;
    FollowerTurns(s, c, c.msg.term, None);
    if c.msg.term == 0 {
      Unchanged(s, c, HandleRequestVote(s, c.from, c.msg));
    } else {
      var a := if c.msg.preVote then s else Adopt(s, c.msg.term);
      R.AnswerVoteFrame(a, c.from, c.msg);
      if a.role == Leader {
        LeaderAnswers(s, c.from, c.msg);
        Unchanged(s, c, AnswerVote(s, c.from, c.msg));
      } else {
        OutOfOffice(s, c, AnswerVote(a, c.from, c.msg));
      }
    }
  }

  /** A leader has voted for itself, and so for nobody else. */
  lemma LeaderAnswers(s: State, from: NodeId, req: Message)
    requires req.RequestVote? && s.votedFor == Some(s.id) && from != s.id
    ensures SameWindow(s, AnswerVote(s, from, req))
  {
    hide LogOk;
  }

  lemma VoteRespTurns(s: State, c: L.Call)
    requires c.CallStep? && c.msg.RequestVoteResp?
    ensures Turns(s, c, HandleVoteResp(s, c.from, c.msg))
  {
    hide StartElection, BecomeLeader, BecomeFollower, Turns;
    FollowerTurns(s, c, c.msg.term, None);
    Unchanged(s, c, s);
    var a := s.(votes := s.votes + {c.from});
    if s.role != Leader {
      OutOfOffice(s, c, a);
      ElectionTurns(a);
      OfficeTurns(a);
      Taken(s, c, StartElection(a));
      if a.role == Candidate {
        Taken(s, c, BecomeLeader(a));
      }
    }
  }

  lemma Taken(s: State, c: L.Call, r: State)
    requires s.role != Leader && (r.role == Leader ==> r.ackedSinceCheck == {} && r.electionElapsed == 0)
    ensures Turns(s, c, r)
  {
  }

  lemma AppendTurns(s: State, c: L.Call)
    requires c.CallStep? && c.msg.AppendEntries?
    ensures Turns(s, c, HandleAppend(s, c.from, c.msg))
  {
    hide AcceptAppend, EntriesAreContiguous, BecomeFollower;
    var a := Adopt(s, c.msg.term);
    FollowerTurns(s, c, c.msg.term, None);
    FollowerTurns(a, c, c.msg.term, Some(c.from));
    G.AcceptAppendFrame(BecomeFollower(a, c.msg.term, Some(c.from)), c.from, c.msg);
  }

  lemma SnapshotTurns(s: State, c: L.Call)
    requires c.CallStep? && c.msg.InstallSnapshot?
    ensures Turns(s, c, HandleInstallSnapshot(s, c.from, c.msg))
  {
    hide AcceptSnapshot, SnapshotMetadataIsValid, BecomeFollower;
    var a := Adopt(s, c.msg.term);
    FollowerTurns(s, c, c.msg.term, None);
    FollowerTurns(a, c, c.msg.term, Some(c.from));
    T.SnapshotFrame(BecomeFollower(a, c.msg.term, Some(c.from)), c.from, c.msg);
  }

  lemma MatchSame(s: State, from: NodeId, acknowledged: nat)
    ensures SameWindow(s, RecordMatch(s, from, acknowledged))
  {
    hide HighestCommittable, SendAppends;
  }

  lemma RewindSame(s: State, from: NodeId, hint: nat)
    ensures SameWindow(s, Rewind(s, from, hint))
  {
    hide SendAppend;
  }

  lemma ReplyTurns(s: State, c: L.Call)
    requires c.CallStep? && c.from in s.peers && (c.msg.AppendEntriesResp? || c.msg.InstallSnapshotResp?)
    ensures Turns(s, c, Step(s, c.from, c.msg))
  {
    hide RecordMatch, Rewind, BecomeFollower;
    FollowerTurns(s, c, c.msg.term, None);
    var a := s.(ackedSinceCheck := s.ackedSinceCheck + {c.from});
    if c.msg.AppendEntriesResp? {
      MatchSame(a, c.from, Min(c.msg.matchIndex, LastIndex(a)));
      RewindSame(a, c.from, c.msg.matchIndex);
    } else {
      MatchSame(a.(snapshotInflight := a.snapshotInflight - {c.from}), c.from,
                Min(c.msg.lastIncludedIndex, Get(a.snapshotInflight, c.from, 0)));
    }
  }

  lemma StepTurns(s: State, c: L.Call)
    requires c.CallStep? && (s.role == Leader ==> s.votedFor == Some(s.id)) && s.id !in s.peers
    ensures Turns(s, c, Step(s, c.from, c.msg))
  {
    hide Turns, HandleRequestVote, HandleVoteResp, HandleAppend, HandleAppendResp, HandleInstallSnapshot,
         HandleInstallSnapshotResp;
    if Admissible(s, c.from, c.msg) {
      match c.msg
      case RequestVote(_, _, _, _, _) => AnswerTurns(s, c);
      case RequestVoteResp(_, _, _) => VoteRespTurns(s, c);
      case AppendEntries(_, _, _, _, _, _) => AppendTurns(s, c);
      case InstallSnapshot(_, _, _, _, _) => SnapshotTurns(s, c);
      case _ => ReplyTurns(s, c);
    } else if !Answers(s, c) {
      Unchanged(s, c, s);
    }
  }

  lemma ProposeSame(s: State, command: Command)
    ensures SameWindow(s, Propose(s, command))
  {
    hide HighestCommittable, SendAppends;
  }

  lemma CompactSame(s: State, index: nat, data: Replicated)
    ensures SameWindow(s, Compact(s, index, data))
  {
    hide TermAt;
  }

  lemma CallTurns(s: State, c: L.Call, w: Window)
    requires (s.role == Leader ==> s.votedFor == Some(s.id) && Keeps(s, w)) && s.id !in s.peers
    ensures Turns(s, c, L.Perform(s, c))
  {
    hide Turns, Tick, Step, Propose, Compact;
    match c
    case CallTick =>
      if s.role == Leader {
        LeaderTick(s, w);
      } else {
        WaitTurns(s);
      }
    case CallStep(_, _) => StepTurns(s, c);
    case CallPropose(command) =>
      ProposeSame(s, command);
      Unchanged(s, c, Propose(s, command));
    case CallCompact(index, data) =>
      CompactSame(s, index, data);
      Unchanged(s, c, Compact(s, index, data));
  }

  // ---- runs -------------------------------------------------------------

  /** Whoever leads has voted for itself. */
  ghost predicate Own(s: State) { s.id !in s.peers && B.Entitled(s) && L.Valid(s) }

  lemma CallOwn(s: State, c: L.Call)
    requires Own(s)
    ensures var r := TakeReady(L.Perform(s, c)).1; Own(r) && r.id == s.id && r.peers == s.peers && r.cfg == s.cfg
  {
    hide L.Valid, B.Entitled, L.Perform;
    L.PerformSound(s, c);
    SoundIs(s, L.Perform(s, c));
    if c.CallCompact? {
      CompactOwn(s, c.index, c.data);
      PerformedCompact(s, c.index, c.data);
      TakenOwn(Compact(s, c.index, c.data));
    } else {
      var e := EventOf(s, c);
      CastOwn(s, e, c);
    }
  }

  lemma EventOf(s: State, c: L.Call) returns (e: C.Event)
    requires !c.CallCompact?
    ensures (e.Ticks? || e.Receives? || e.Proposes?) && C.Called(s, e) == L.Perform(s, c)
  {
    hide Tick, Step, Propose;
    match c
    case CallTick => e := C.Ticks(s.id);
    case CallStep(from, msg) => e := C.Receives(C.Packet(from, s.id, msg));
    case CallPropose(command) => e := C.Proposes(s.id, command);
  }

  lemma PerformedCompact(s: State, index: nat, data: Replicated)
    ensures L.Perform(s, L.CallCompact(index, data)) == Compact(s, index, data)
  {
  }

  lemma SoundIs(s: State, r: State)
    requires L.Valid(s) && L.Sound(s, r)
    ensures L.Valid(r) && r.id == s.id && r.peers == s.peers && r.cfg == s.cfg
  {
    hide L.ValidPersisted;
  }

  lemma CastOwn(s: State, e: C.Event, c: L.Call)
    requires Own(s) && (e.Ticks? || e.Receives? || e.Proposes?) && C.Called(s, e) == L.Perform(s, c)
    ensures var q := L.Perform(s, c); B.Entitled(q) && B.Entitled(TakeReady(q).1)
    ensures L.Valid(L.Perform(s, c)) ==> L.Valid(TakeReady(L.Perform(s, c)).1)
  {
    hide C.Called, L.Perform, L.Valid, B.Cast, B.Entitled;
    B.CallCasts(s, e);
    B.CastParts(s, C.Called(s, e), B.CauseOf(e));
    TakenOwn(L.Perform(s, c));
  }

  lemma TakenOwn(q: State)
    ensures var r := TakeReady(q).1;
            && (B.Entitled(q) ==> B.Entitled(r)) && (L.Valid(q) ==> L.Valid(r))
            && r.id == q.id && r.peers == q.peers && r.cfg == q.cfg
  {
  }

  lemma CompactOwn(s: State, index: nat, data: Replicated)
    ensures B.Entitled(s) ==> B.Entitled(Compact(s, index, data))
  {
    hide TermAt;
  }

  lemma {:induction false} WindowTracked(x: L.Saved, calls: seq<L.Call>)
    requires Own(x.state) && x.state.role != Leader
    ensures var s := L.PerformAll(x, calls).state;
            && Own(s) && s.peers == x.state.peers && s.cfg == x.state.cfg && s.id == x.state.id
            && (s.role == Leader ==> Keeps(s, WindowOf(x, calls)))
  {
    hide Own, L.Perform, Turns, Answers;
    if calls != [] {
      var k := |calls| - 1;
      WindowTracked(x, calls[..k]);
      var s, c := L.PerformAll(x, calls[..k]).state, calls[k];
      CallOwn(s, c);
      OwnLeader(s);
      CallTurns(s, c, WindowOf(x, calls[..k]));
      TakenTurns(s, c, L.Perform(s, c));
      if L.PerformAll(x, calls).state.role == Leader {
        Tracked(s, c, L.PerformAll(x, calls).state, WindowOf(x, calls[..k]));
      }
    }
  }

  lemma OwnLeader(s: State)
    requires Own(s)
    ensures (s.role == Leader ==> s.votedFor == Some(s.id)) && s.id !in s.peers
  {
  }

  lemma TakenTurns(s: State, c: L.Call, q: State)
    requires Turns(s, c, q)
    ensures Turns(s, c, TakeReady(q).1)
  {
  }

  lemma Tracked(s: State, c: L.Call, r: State, w: Window)
    requires Turns(s, c, r) && (s.role == Leader ==> Keeps(s, w)) && r.role == Leader
    ensures LeadsOn(s, r) && c.CallTick? && w.ticks + 1 < w.length ==> Keeps(r, w.(ticks := w.ticks + 1))
    ensures LeadsOn(s, r) && !c.CallTick? && Answers(s, c) ==> Keeps(r, w.(heard := w.heard + {c.from}))
    ensures LeadsOn(s, r) && !c.CallTick? && !Answers(s, c) ==> Keeps(r, w)
    ensures !LeadsOn(s, r) || (c.CallTick? && w.ticks + 1 >= w.length) ==> Keeps(r, Window({}, 0, r.electionTimeout))
  {
    hide Answers;
  }

  /**
   * A leader that is heard stays, and only that: after any run with arbitrary messages, a
   * tick leaves a leader in office, in its term, unless its window ends with it and those who
   * answered in the window are no majority with the leader itself; then it steps down, and
   * keeps its term. Windows are as long as election timeouts.
   */
  lemma HeardLeaderStays(id: NodeId, peers: seq<NodeId>, cfg: Config, draws: nat -> nat, p: Persisted,
                         calls: seq<L.Call>)
    requires L.ValidPersisted(p) && id !in peers
    requires L.PerformAll(L.Saved(New(id, peers, cfg, draws, p), p), calls).state.role == Leader
    ensures var x := L.Saved(New(id, peers, cfg, draws, p), p);
            var s, w := L.PerformAll(x, calls).state, WindowOf(x, calls);
            var r := Tick(s);
            && r.currentTerm == s.currentTerm
            && (if Ends(w) && 2 * (|w.heard| + 1) <= |peers| + 1 then r.role == Follower && r.leaderId.None?
                else r.role == Leader)
  {
    hide L.ValidPersisted, L.PerformAll, WindowOf, Tick, Own;
    var x := L.Saved(New(id, peers, cfg, draws, p), p);
    NewOwn(id, peers, cfg, draws, p);
    WindowTracked(x, calls);
    LeaderTick(L.PerformAll(x, calls).state, WindowOf(x, calls));
  }

  lemma NewOwn(id: NodeId, peers: seq<NodeId>, cfg: Config, draws: nat -> nat, p: Persisted)
    requires L.ValidPersisted(p) && id !in peers
    ensures var s := New(id, peers, cfg, draws, p);
            Own(s) && s.role != Leader && s.peers == peers && s.cfg == cfg && s.id == id
  {
    hide Timeout;
  }
}
