/**
 * A member's own bookkeeping under arbitrary messages: the election timer, what a
 * leader believes about its peers, and what has been handed out to apply.
 */
module RaftProgress {
  import opened Model
  import opened RaftSpec
  import opened RaftSplice
  import L = RaftLocal

  /** The longest timeout a member can draw. */
  function Longest(cfg: Config): nat {
    Max(cfg.electionMaxTicks, Max(cfg.electionMinTicks, 1))
  }

  ghost predicate Timed(s: State) { s.electionTimeout <= Longest(s.cfg) }

  /** What a leader believes stays inside its own log. */
  ghost predicate Tracked(s: State) {
    s.role == Leader ==>
      && (forall p :: p in s.nextIndex ==> 1 <= s.nextIndex[p] <= LastIndex(s) + 1)
      && (forall p :: p in s.matchIndex ==> s.matchIndex[p] <= LastIndex(s))
      && (forall p :: p in s.snapshotInflight ==> s.snapshotInflight[p] <= LastIndex(s))
  }

  predicate Waiting(s: State) { s.role == Follower || s.role == PreCandidate }

  ghost predicate MatchGrows(s: State, r: State) {
    forall p :: Get(s.matchIndex, p, 0) <= Get(r.matchIndex, p, 0)
  }

  /**
   * Within one term a candidate may win, a leader may step down, and neither ever
   * comes back; while a leader leads, no match index falls.
   */
  ghost predicate Onward(s: State, r: State) {
    || r.currentTerm > s.currentTerm
    || (r.currentTerm == s.currentTerm
        && (s.role == Leader ==> Waiting(r) || (r.role == Leader && MatchGrows(s, r)))
        && (Waiting(s) ==> Waiting(r)))
  }

  /** What has been handed out to apply moves only by installing a snapshot, and that jumps past the commit index. */
  ghost predicate Steady(s: State, r: State) {
    && s.commitIndex <= r.commitIndex
    && ((r.lastApplied == s.lastApplied && r.pendingRestore == s.pendingRestore)
        || (r.pendingRestore && r.lastApplied > s.commitIndex))
  }

  ghost predicate Progresses(s: State, r: State) {
    r.cfg == s.cfg && r.peers == s.peers && (Timed(s) ==> Timed(r)) && (Tracked(s) ==> Tracked(r)) && Onward(s, r)
  }

  /** What every engine operation keeps. */
  ghost predicate Keeps(s: State, r: State) { Progresses(s, r) && Steady(s, r) }

  lemma KeepsTransitive(s: State, r: State, q: State)
    requires Keeps(s, r) && Keeps(r, q)
    ensures Keeps(s, q)
  {
    ProgressesTransitive(s, r, q);
  }

  lemma ProgressesTransitive(s: State, r: State, q: State)
    requires Progresses(s, r) && Progresses(r, q)
    ensures Progresses(s, q)
  {
    if MatchGrows(s, r) && MatchGrows(r, q) {
      forall p ensures Get(s.matchIndex, p, 0) <= Get(q.matchIndex, p, 0) {
        assert Get(s.matchIndex, p, 0) <= Get(r.matchIndex, p, 0);
      }
    }
  }

  /** Nothing the bookkeeping depends on changes, except that the log may grow. */
  lemma Untouched(s: State, r: State)
    requires r.cfg == s.cfg && r.peers == s.peers && r.electionTimeout == s.electionTimeout
    requires r.currentTerm == s.currentTerm && r.role == s.role && LastIndex(s) <= LastIndex(r)
    requires r.matchIndex == s.matchIndex && r.nextIndex == s.nextIndex
    requires r.snapshotInflight == s.snapshotInflight
    ensures Progresses(s, r)
    ensures Steady(s, r) ==> Keeps(s, r)
  {
  }

  /** A member that waits, whatever else it did, as long as it did not also fall back to an earlier term. */
  lemma Waits(s: State, r: State)
    requires r.cfg == s.cfg && r.peers == s.peers && (r.electionTimeout == s.electionTimeout || Timed(r))
    requires r.currentTerm >= s.currentTerm && Waiting(r) && Steady(s, r)
    ensures Keeps(s, r)
  {
  }

  lemma ResetTimerKeeps(s: State)
    ensures Keeps(s, ResetTimer(s)) && Timed(ResetTimer(s))
  {
  }

  lemma BecomeFollowerKeeps(s: State, t: nat, leader: Option<NodeId>)
    ensures Keeps(s, BecomeFollower(s, t, leader))
  {
    Waits(s, BecomeFollower(s, t, leader));
  }

  lemma SendAppendKeeps(s: State, p: NodeId)
    ensures Keeps(s, SendAppend(s, p))
  {
  }

  lemma {:induction false} SendAppendsKeeps(s: State, ps: seq<NodeId>)
    ensures Keeps(s, SendAppends(s, ps))
  {
    hide Keeps, SendAppend;
    if ps == [] {
      Untouched(s, s);
    } else {
      var a := SendAppends(s, ps[..|ps| - 1]);
      SendAppendsKeeps(s, ps[..|ps| - 1]);
      SendAppendKeeps(a, ps[|ps| - 1]);
      KeepsTransitive(s, a, SendAppends(s, ps));
    }
  }

  lemma TakeOfficeKeeps(s: State)
    requires s.role == Candidate
    ensures Keeps(s, TakeOffice(s))
  {
  }

  lemma MaybeWinElectionKeeps(s: State)
    ensures Keeps(s, MaybeWinElection(s))
  {
    hide Keeps, TakeOffice, ResetTimer, SendAppends;
    if s.role == Candidate && |s.votes| >= Quorum(s) {
      var a := TakeOffice(s);
      TakeOfficeKeeps(s);
      ResetTimerKeeps(a);
      KeepsTransitive(s, a, ResetTimer(a));
      SendAppendsKeeps(ResetTimer(a), ResetTimer(a).peers);
      KeepsTransitive(s, ResetTimer(a), BecomeLeader(s));
    } else {
      Untouched(s, s);
    }
  }

  lemma StartElectionKeeps(s: State)
    ensures Keeps(s, StartElection(s))
  {
    hide MaybeWinElection;
    var a := Campaigning(s);
    var b := SendAll(a, a.peers, RequestVote(a.currentTerm, a.id, LastIndex(a), LastTerm(a), false));
    assert Keeps(s, b);
    MaybeWinElectionKeeps(b);
    KeepsTransitive(s, b, MaybeWinElection(b));
  }

  lemma MaybeWinPreElectionKeeps(s: State)
    ensures Keeps(s, MaybeWinPreElection(s))
  {
    hide Keeps, StartElection;
    Untouched(s, s);
    StartElectionKeeps(s);
  }

  lemma HeartbeatKeeps(s: State)
    ensures Keeps(s, Heartbeat(s))
  {
    hide Keeps, SendAppends;
    var a := s.(heartbeatElapsed := s.heartbeatElapsed + 1);
    Untouched(s, a);
    var b := a.(heartbeatElapsed := 0);
    Untouched(s, b);
    SendAppendsKeeps(b, b.peers);
    KeepsTransitive(s, b, BroadcastAppend(b));
  }

  lemma CheckQuorumKeeps(s: State)
    ensures Keeps(s, CheckQuorum(s))
  {
    hide Keeps, ResetTimer, BecomeFollower;
    var a := s.(electionElapsed := s.electionElapsed + 1);
    var b := a.(ackedSinceCheck := {});
    Untouched(s, a);
    Untouched(s, b);
    BecomeFollowerKeeps(b, b.currentTerm, None);
    ResetTimerKeeps(b);
    KeepsTransitive(s, b, CheckQuorum(s)) by {
      if a.electionElapsed < a.electionTimeout { Untouched(b, a); }
    }
  }

  lemma TickKeeps(s: State)
    ensures Keeps(s, Tick(s))
  {
    hide Keeps, Heartbeat, CheckQuorum, MaybeWinPreElection, Timeout;
    if s.role == Leader {
      HeartbeatKeeps(s);
      CheckQuorumKeeps(Heartbeat(s));
      KeepsTransitive(s, Heartbeat(s), Tick(s));
    } else {
      var a := s.(electionElapsed := s.electionElapsed + 1);
      Untouched(s, a);
      ResetTimerKeeps(a);
      var b := ResetTimer(a).(role := PreCandidate, votes := {s.id});
      var c := SendAll(b, b.peers, RequestVote(b.currentTerm + 1, b.id, LastIndex(b), LastTerm(b), true));
      Waits(s, c);
      MaybeWinPreElectionKeeps(c);
      KeepsTransitive(s, c, MaybeWinPreElection(c));
    }
  }

  lemma AdoptKeeps(s: State, t: nat)
    ensures Keeps(s, Adopt(s, t))
  {
    hide Keeps, BecomeFollower;
    Untouched(s, s);
    BecomeFollowerKeeps(s, t, None);
  }

  lemma HandleRequestVoteKeeps(s: State, from: NodeId, req: Message)
    requires req.RequestVote?
    ensures Keeps(s, HandleRequestVote(s, from, req))
  {
    hide Keeps, Adopt, AnswerVote;
    Untouched(s, s);
    var a := if req.preVote then s else Adopt(s, req.term);
    AdoptKeeps(s, req.term);
    if req.term == 0 {
      Untouched(s, HandleRequestVote(s, from, req));
    } else {
      AnswerVoteKeeps(a, from, req);
      KeepsTransitive(s, a, AnswerVote(a, from, req));
    }
  }

  lemma AnswerVoteKeeps(a: State, from: NodeId, req: Message)
    requires req.RequestVote?
    ensures Keeps(a, AnswerVote(a, from, req))
  {
    hide Keeps, ResetTimer, LogOk;
    var r := AnswerVote(a, from, req);
    if !req.preVote && req.term == a.currentTerm && (a.votedFor.None? || a.votedFor == Some(from))
       && LogOk(a, req.lastLogIndex, req.lastLogTerm) {
      var b := a.(votedFor := Some(from), dirty := true);
      Untouched(a, b);
      ResetTimerKeeps(b);
      KeepsTransitive(a, b, ResetTimer(b));
      Untouched(ResetTimer(b), r);
      KeepsTransitive(a, ResetTimer(b), r);
    } else {
      assert r == a.(out := r.out);
      Untouched(a, r);
    }
  }

  lemma HandleVoteRespKeeps(s: State, from: NodeId, resp: Message)
    requires resp.RequestVoteResp?
    ensures Keeps(s, HandleVoteResp(s, from, resp))
  {
    hide Keeps, MaybeWinElection, MaybeWinPreElection, BecomeFollower;
    var a := s.(votes := s.votes + {from});
    Untouched(s, s);
    Untouched(s, a);
    BecomeFollowerKeeps(s, resp.term, None);
    MaybeWinElectionKeeps(a);
    MaybeWinPreElectionKeeps(a);
    KeepsTransitive(s, a, MaybeWinElection(a));
    KeepsTransitive(s, a, MaybeWinPreElection(a));
  }

  /** Splicing touches the log only. */
  lemma {:induction false} SpliceFrame(s: State, entries: seq<Entry>, prev: nat)
    ensures var r := Splice(s, entries, prev).state; r == s.(log := r.log, dirty := r.dirty)
    decreases |entries|
  {
    hide TermAt;
    if entries != [] {
      var e := entries[0];
      if e.index > LastIndex(s) {
        SpliceFrame(s.(log := s.log + [e], dirty := true), entries[1..], e.index);
      } else if TermAt(s, e.index) == e.term {
        SpliceFrame(s, entries[1..], e.index);
      } else if TruncateFrom(s, e.index).0 {
        var t := TruncateFrom(s, e.index).1;
        TruncateFrame(s, e.index);
        hide TruncateFrom;
        SpliceFrame(t.(log := t.log + [e], dirty := true), entries[1..], e.index);
      }
    }
  }

  lemma TruncateFrame(s: State, index: nat)
    ensures var t := TruncateFrom(s, index).1; t == s.(log := t.log, dirty := t.dirty)
  {
  }

  lemma AcceptAppendKeeps(s: State, from: NodeId, req: Message)
    requires req.AppendEntries? && Waiting(s)
    ensures Keeps(s, AcceptAppend(s, from, req))
  {
    hide Keeps, AcceptAppend;
    AcceptAppendFrame(s, from, req);
    Waits(s, AcceptAppend(s, from, req));
  }

  /** An append touches the log, the commit index and the answer. */
  lemma AcceptAppendFrame(s: State, from: NodeId, req: Message)
    requires req.AppendEntries?
    ensures var r := AcceptAppend(s, from, req);
            && r == s.(log := r.log, dirty := r.dirty, commitIndex := r.commitIndex, out := r.out)
            && r.commitIndex >= s.commitIndex
  {
    hide Splice, TermAt, FollowCommit;
    var r := AcceptAppend(s, from, req);
    if req.prevLogIndex <= LastIndex(s) && (req.prevLogIndex == 0 || TermAt(s, req.prevLogIndex) == req.prevLogTerm) {
      var sp := Splice(s, req.entries, req.prevLogIndex);
      SpliceFrame(s, req.entries, req.prevLogIndex);
      FollowCommitFrame(sp.state, Min(req.leaderCommit, sp.confirmed));
      var a := if sp.ok then FollowCommit(sp.state, Min(req.leaderCommit, sp.confirmed)) else sp.state;
      assert r == a.(out := r.out);
    } else {
      assert r == s.(out := r.out);
    }
  }

  lemma FollowCommitFrame(s: State, c: nat)
    ensures var r := FollowCommit(s, c);
            r == s.(commitIndex := r.commitIndex, dirty := r.dirty) && r.commitIndex >= s.commitIndex
  {
  }

  lemma HandleAppendKeeps(s: State, from: NodeId, req: Message)
    requires req.AppendEntries?
    ensures Keeps(s, HandleAppend(s, from, req))
  {
    hide Keeps, EntriesAreContiguous, AcceptAppend, Adopt, Timeout;
    var r := HandleAppend(s, from, req);
    if req.term < s.currentTerm {
      Untouched(s, r);
    } else {
      var a := Adopt(s, req.term);
      AdoptKeeps(s, req.term);
      if EntriesAreContiguous(req) {
        var b := BecomeFollower(a, req.term, Some(from));
        BecomeFollowerKeeps(a, req.term, Some(from));
        AcceptAppendKeeps(b, from, req);
        KeepsTransitive(a, b, r);
      } else {
        Untouched(a, r);
      }
      KeepsTransitive(s, a, r);
    }
  }

  lemma MaybeAdvanceCommitKeeps(s: State)
    ensures Keeps(s, MaybeAdvanceCommit(s))
  {
    hide Keeps, HighestCommittable;
    Untouched(s, MaybeAdvanceCommit(s));
  }

  function Matched(s: State, from: NodeId, acknowledged: nat): State {
    var matched := Max(acknowledged, Get(s.matchIndex, from, 0));
    s.(matchIndex := s.matchIndex[from := matched], nextIndex := s.nextIndex[from := matched + 1])
  }

  lemma RecordMatchKeeps(s: State, from: NodeId, acknowledged: nat)
    ensures Keeps(Matched(s, from, acknowledged), RecordMatch(s, from, acknowledged))
  {
    hide Keeps, MaybeAdvanceCommit, SendAppends;
    var a := Matched(s, from, acknowledged);
    var b := MaybeAdvanceCommit(a);
    MaybeAdvanceCommitKeeps(a);
    SendAppendsKeeps(b, b.peers);
    KeepsTransitive(a, b, BroadcastAppend(b));
  }

  lemma RewindKeeps(s: State, from: NodeId, hint: nat)
    ensures Keeps(s, Rewind(s, from, hint))
  {
    hide SendAppend;
    var previous := Get(s.nextIndex, from, 1);
    var next := Min(hint + 1, Max(Minus(previous, 1), 1));
    var a := s.(nextIndex := s.nextIndex[from := Min(next, previous)]);
    assert Keeps(s, a);
    hide Keeps;
    SendAppendKeeps(a, from);
    KeepsTransitive(s, a, SendAppend(a, from));
  }

  lemma HandleAppendRespKeeps(s: State, from: NodeId, resp: Message)
    requires resp.AppendEntriesResp?
    ensures Keeps(s, HandleAppendResp(s, from, resp))
  {
    hide BecomeFollower, RecordMatch, Rewind;
    var a := s.(ackedSinceCheck := s.ackedSinceCheck + {from});
    var m := Min(resp.matchIndex, LastIndex(a));
    assert Keeps(s, Matched(a, from, m));
    hide Keeps;
    BecomeFollowerKeeps(s, resp.term, None);
    Untouched(s, s);
    Untouched(s, a);
    RecordMatchKeeps(a, from, m);
    KeepsTransitive(s, Matched(a, from, m), RecordMatch(a, from, m));
    RewindKeeps(a, from, resp.matchIndex);
    KeepsTransitive(s, a, Rewind(a, from, resp.matchIndex));
  }

  lemma AcceptSnapshotKeeps(s: State, from: NodeId, req: Message)
    requires req.InstallSnapshot? && Waiting(s)
    ensures Keeps(s, AcceptSnapshot(s, from, req))
  {
    hide Keeps, TermAt;
    Waits(s, AcceptSnapshot(s, from, req));
  }

  lemma HandleInstallSnapshotKeeps(s: State, from: NodeId, req: Message)
    requires req.InstallSnapshot?
    ensures Keeps(s, HandleInstallSnapshot(s, from, req))
  {
    hide Keeps, AcceptSnapshot, Adopt, Timeout;
    var r := HandleInstallSnapshot(s, from, req);
    if req.term < s.currentTerm {
      Untouched(s, r);
    } else {
      var a := Adopt(s, req.term);
      AdoptKeeps(s, req.term);
      if SnapshotMetadataIsValid(req) {
        var b := BecomeFollower(a, req.term, Some(from));
        BecomeFollowerKeeps(a, req.term, Some(from));
        AcceptSnapshotKeeps(b, from, req);
        KeepsTransitive(a, b, r);
      } else {
        Untouched(a, r);
      }
      KeepsTransitive(s, a, r);
    }
  }

  lemma HandleInstallSnapshotRespKeeps(s: State, from: NodeId, resp: Message)
    requires resp.InstallSnapshotResp?
    ensures Keeps(s, HandleInstallSnapshotResp(s, from, resp))
  {
    hide BecomeFollower, RecordMatch, Keeps;
    var a := s.(ackedSinceCheck := s.ackedSinceCheck + {from}, snapshotInflight := s.snapshotInflight - {from});
    var m := Min(resp.lastIncludedIndex, Get(s.snapshotInflight, from, 0));
    SnapshotMatchedKeeps(s, from, m);
    BecomeFollowerKeeps(s, resp.term, None);
    Untouched(s, s);
    Untouched(s, s.(ackedSinceCheck := s.ackedSinceCheck + {from}));
    RecordMatchKeeps(a, from, m);
    KeepsTransitive(s, Matched(a, from, m), RecordMatch(a, from, m));
  }

  /** What was in flight lies within the log, so recording it does too. */
  lemma SnapshotMatchedKeeps(s: State, from: NodeId, m: nat)
    requires m <= Get(s.snapshotInflight, from, 0)
    ensures var a := s.(ackedSinceCheck := s.ackedSinceCheck + {from}, snapshotInflight := s.snapshotInflight - {from});
            Keeps(s, Matched(a, from, m))
  {
  }

  lemma StepKeeps(s: State, from: NodeId, msg: Message)
    ensures Keeps(s, Step(s, from, msg))
  {
    hide Keeps, HandleRequestVote, HandleVoteResp, HandleAppend, HandleAppendResp, HandleInstallSnapshot,
      HandleInstallSnapshotResp;
    if !Admissible(s, from, msg) {
      Untouched(s, s);
    } else {
      match msg
      case RequestVote(_, _, _, _, _) => HandleRequestVoteKeeps(s, from, msg);
      case RequestVoteResp(_, _, _) => HandleVoteRespKeeps(s, from, msg);
      case AppendEntries(_, _, _, _, _, _) => HandleAppendKeeps(s, from, msg);
      case AppendEntriesResp(_, _, _) => HandleAppendRespKeeps(s, from, msg);
      case InstallSnapshot(_, _, _, _, _) => HandleInstallSnapshotKeeps(s, from, msg);
      case InstallSnapshotResp(_, _, _) => HandleInstallSnapshotRespKeeps(s, from, msg);
    }
  }

  lemma ProposeKeeps(s: State, command: Command)
    ensures Keeps(s, Propose(s, command))
  {
    hide Keeps, MaybeAdvanceCommit, SendAppends;
    Untouched(s, s);
    var e := Entry(s.currentTerm, LastIndex(s) + 1, Some(command));
    var a := s.(log := s.log + [e], dirty := true);
    Untouched(s, a);
    var b := MaybeAdvanceCommit(a);
    MaybeAdvanceCommitKeeps(a);
    KeepsTransitive(s, a, b);
    SendAppendsKeeps(b, b.peers);
    KeepsTransitive(s, b, BroadcastAppend(b));
  }

  /** A call followed by taking its effects. */
  lemma PerformProgresses(x: L.Saved, c: L.Call)
    requires L.Valid(x.state)
    ensures Progresses(x.state, L.PerformAndSave(x, c).state)
  {
    hide Progresses, Steady, Tick, Step, Propose, TermAt;
    var s := x.state;
    var r := L.Perform(s, c);
    match c {
      case CallTick => TickKeeps(s);
      case CallStep(from, msg) => StepKeeps(s, from, msg);
      case CallPropose(command) => ProposeKeeps(s, command);
      case CallCompact(index, data) => Untouched(s, r);
    }
    Untouched(r, TakeReady(r).1);
    ProgressesTransitive(s, r, TakeReady(r).1);
  }

  lemma {:induction false} RunProgresses(x: L.Saved, calls: seq<L.Call>)
    requires L.Valid(x.state) && x.disk == Durable(x.state)
    ensures Progresses(x.state, L.PerformAll(x, calls).state)
  {
    hide Progresses, L.PerformAndSave;
    if calls == [] {
      Untouched(x.state, x.state);
    } else {
      var k := |calls| - 1;
      RunProgresses(x, calls[..k]);
      L.RobustValid(x, calls[..k]);
      PerformProgresses(L.PerformAll(x, calls[..k]), calls[k]);
      ProgressesTransitive(x.state, L.PerformAll(x, calls[..k]).state, L.PerformAll(x, calls).state);
    }
  }

  lemma {:induction false} RunsChain(x: L.Saved, calls: seq<L.Call>, more: seq<L.Call>)
    ensures L.PerformAll(x, calls + more) == L.PerformAll(L.PerformAll(x, calls), more)
    decreases |more|
  {
    hide L.PerformAndSave;
    if more == [] {
      assert calls + more == calls;
    } else {
      var k := |more| - 1;
      var all := calls + more;
      assert all[..|all| - 1] == calls + more[..k];
      RunsChain(x, calls, more[..k]);
    }
  }

  /**
   * Replication bookkeeping. Under every sequence of calls with arbitrary
   * responses, while a member leads, `next` stays in 1..last+1 and `match` within
   * its log; and if it leads the same term at two points, it led throughout and no
   * match index fell in between.
   */
  lemma Bookkeeping(id: NodeId, peers: seq<NodeId>, cfg: Config, draws: nat -> nat, p: Persisted,
                    calls: seq<L.Call>, more: seq<L.Call>)
    requires L.ValidPersisted(p)
    ensures var x := L.Saved(New(id, peers, cfg, draws, p), p);
            var a, b := L.PerformAll(x, calls).state, L.PerformAll(x, calls + more).state;
            && Tracked(a) && Timed(a) && Tracked(b) && Timed(b)
            && (a.role == Leader && b.role == Leader && a.currentTerm == b.currentTerm ==> MatchGrows(a, b))
  {
    hide L.PerformAll;
    var x := L.Saved(New(id, peers, cfg, draws, p), p);
    RunProgresses(x, calls);
    L.RobustValid(x, calls);
    RunProgresses(L.PerformAll(x, calls), more);
    RunsChain(x, calls, more);
  }
}
