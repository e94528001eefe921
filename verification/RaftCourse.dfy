/**
 * What a single engine call may do to the commit index, the log and the office of a
 * member, whatever it is called with: where a commit index comes from, who takes
 * office, and that within a term only the term's leader moves anybody's log.
 */
module RaftCourse {
  import opened Model
  import opened RaftSpec
  import C = RaftCluster
  import G = RaftProgress
  import L = RaftLocal
  import T = RaftRetries

  /** The call delivers an append or a snapshot of the member's own term from a peer. */
  predicate Led(s: State, e: C.Event) {
    && e.Receives? && e.packet.from in s.peers
    && (e.packet.msg.AppendEntries? || e.packet.msg.InstallSnapshot?) && e.packet.msg.term == s.currentTerm
  }

  /** The commit index an append or a snapshot vouches for. */
  function Vouched(msg: Message): nat {
    match msg
    case AppendEntries(_, _, _, _, _, commit) => commit
    case InstallSnapshot(_, _, index, _, _) => index
    case _ => 0
  }

  /** Where the commit index of `q` comes from: it is the old one, a leader vouches for it, or a quorum matches. */
  ghost predicate Sourced(s: State, e: C.Event, q: State) {
    || q.commitIndex == s.commitIndex
    || (e.Receives? && (e.packet.msg.AppendEntries? || e.packet.msg.InstallSnapshot?)
        && e.packet.msg.term == q.currentTerm && q.commitIndex <= Vouched(e.packet.msg))
    || (q.role == Leader && s.commitIndex < q.commitIndex <= LastIndex(q) && Committable(q, q.commitIndex))
  }

  /** Nobody takes office in its own term but a candidate of it. */
  ghost predicate TakesOffice(s: State, q: State) {
    s.currentTerm <= q.currentTerm && (q.role == Leader && q.currentTerm == s.currentTerm ==> L.InOffice(s))
  }

  /** Without its leader, a member in its term only appends; out of office it does not even commit. */
  ghost predicate Undisturbed(s: State, q: State) {
    q.currentTerm == s.currentTerm ==>
      && q.baseIndex == s.baseIndex && s.log <= q.log
      && (!L.InOffice(s) ==> q.commitIndex == s.commitIndex && !L.InOffice(q))
  }

  ghost predicate Follows(s: State, e: C.Event, q: State) {
    Sourced(s, e, q) && TakesOffice(s, q) && (!Led(s, e) ==> Undisturbed(s, q))
  }

  /** `q` has the log, commit index and matches of `s`, in the same or a later term. */
  ghost predicate Idles(s: State, q: State) {
    && s.currentTerm <= q.currentTerm && q.commitIndex == s.commitIndex
    && q.baseIndex == s.baseIndex && s.log <= q.log
    && (q.currentTerm == s.currentTerm && L.InOffice(q) ==> L.InOffice(s))
  }

  lemma IdlesFollows(s: State, e: C.Event, q: State)
    requires Idles(s, q)
    ensures Follows(s, e, q)
  {
  }

  lemma TickIdles(s: State)
    ensures Idles(s, Tick(s))
  {
    hide StartPreElection, CheckQuorum, Heartbeat, Idles;
    if s.role == Leader {
      L.HeartbeatFrame(s);
      CheckQuorumIdles(s, Heartbeat(s));
    } else {
      var a := s.(electionElapsed := s.electionElapsed + 1);
      PreElectionIdles(a);
      WaitIdles(s, a, StartPreElection(a));
    }
  }

  lemma CheckQuorumIdles(s: State, a: State)
    requires s.role == Leader
    requires a == s.(heartbeatElapsed := a.heartbeatElapsed, out := a.out, snapshotInflight := a.snapshotInflight)
    ensures Idles(s, CheckQuorum(a))
  {
    hide Timeout;
  }

  lemma WaitIdles(s: State, a: State, q: State)
    requires a == s.(electionElapsed := a.electionElapsed) && Idles(a, q)
    ensures Idles(s, q) && Idles(s, a)
  {
  }

  lemma PreElectionIdles(s: State)
    ensures Idles(s, StartPreElection(s))
  {
    hide SendAll, Timeout, StartElection;
    var a := ResetTimer(s).(role := PreCandidate, votes := {s.id});
    var b := SendAll(a, a.peers, RequestVote(a.currentTerm + 1, a.id, LastIndex(a), LastTerm(a), true));
    ElectionIdles(b);
  }

  lemma ElectionIdles(s: State)
    ensures Idles(s, StartElection(s)) && StartElection(s).currentTerm > s.currentTerm
  {
    hide SendAll, SendAppends, Timeout, AllAt;
  }

  lemma WinIdles(s: State)
    ensures Idles(s, MaybeWinElection(s))
  {
    hide SendAppends, Timeout, AllAt;
  }

  lemma FollowerIdles(s: State, t: nat, leader: Option<NodeId>)
    ensures Idles(s, BecomeFollower(s, t, leader))
  {
    hide Timeout;
  }

  lemma RequestVoteIdles(s: State, from: NodeId, req: Message)
    requires req.RequestVote?
    ensures Idles(s, HandleRequestVote(s, from, req))
  {
    hide AnswerVote, BecomeFollower;
    FollowerIdles(s, req.term, None);
    T.AnswerVoteFrame(Adopt(s, req.term), from, req);
    T.AnswerVoteFrame(s, from, req);
  }

  lemma VoteRespIdles(s: State, from: NodeId, resp: Message)
    requires resp.RequestVoteResp?
    ensures Idles(s, HandleVoteResp(s, from, resp))
  {
    hide MaybeWinElection, StartElection, BecomeFollower;
    FollowerIdles(s, resp.term, None);
    WinIdles(s.(votes := s.votes + {from}));
    ElectionIdles(s.(votes := s.votes + {from}));
  }

  // ---- appends and snapshots --------------------------------------------

  lemma AppendFollows(s: State, e: C.Event)
    requires e.Receives? && e.packet.msg.AppendEntries? && e.packet.from in s.peers
    ensures Follows(s, e, HandleAppend(s, e.packet.from, e.packet.msg))
  {
    hide AcceptAppend, BecomeFollower, EntriesAreContiguous, Committable;
    var req := e.packet.msg;
    var a := Adopt(s, req.term);
    FollowerIdles(s, req.term, None);
    if req.term >= s.currentTerm {
      BecomesFollower(s, req.term, e.packet.from);
    }
    AppendCommits(BecomeFollower(a, req.term, Some(e.packet.from)), e.packet.from, req);
    G.AcceptAppendFrame(BecomeFollower(a, req.term, Some(e.packet.from)), e.packet.from, req);
  }

  /** An append moves the commit index no further than the leader vouches for. */
  lemma AppendCommits(s: State, from: NodeId, req: Message)
    requires req.AppendEntries?
    ensures var r := AcceptAppend(s, from, req);
            r.commitIndex == s.commitIndex || r.commitIndex <= req.leaderCommit
  {
    hide Splice, TermAt;
    G.SpliceFrame(s, req.entries, req.prevLogIndex);
  }

  /** Whoever hears from the leader of its own or a later term follows it. */
  lemma BecomesFollower(s: State, t: nat, from: NodeId)
    requires t >= s.currentTerm
    ensures var b := BecomeFollower(Adopt(s, t), t, Some(from));
            b.currentTerm == t && b.role == Follower && b.commitIndex == s.commitIndex
    ensures Adopt(s, t).currentTerm == t
  {
    hide Timeout;
  }

  lemma SnapshotFollows(s: State, e: C.Event)
    requires e.Receives? && e.packet.msg.InstallSnapshot? && e.packet.from in s.peers
    ensures Follows(s, e, HandleInstallSnapshot(s, e.packet.from, e.packet.msg))
  {
    hide AcceptSnapshot, BecomeFollower, SnapshotMetadataIsValid, Committable;
    var req := e.packet.msg;
    FollowerIdles(s, req.term, None);
    if req.term >= s.currentTerm {
      BecomesFollower(s, req.term, e.packet.from);
    }
    AcceptSnapshotFrame(BecomeFollower(Adopt(s, req.term), req.term, Some(e.packet.from)), e.packet.from, req);
  }

  lemma AcceptSnapshotFrame(s: State, from: NodeId, req: Message)
    requires req.InstallSnapshot?
    ensures var r := AcceptSnapshot(s, from, req);
            && r.role == s.role && r.currentTerm == s.currentTerm
            && (r.commitIndex == s.commitIndex || r.commitIndex <= req.lastIncludedIndex)
  {
    hide TermAt;
  }

  // ---- leaders ----------------------------------------------------------

  /** A leader that looks for a commit keeps everything else, and what it finds is committable. */
  lemma Advances(s: State, e: C.Event, a: State)
    requires s.role == Leader && a.role == Leader && a.currentTerm == s.currentTerm && a.commitIndex == s.commitIndex
    requires a.baseIndex == s.baseIndex && s.log <= a.log
    ensures var b := MaybeAdvanceCommit(a);
            && Follows(s, e, b) && Follows(s, e, BroadcastAppend(b))
  {
    hide HighestCommittable, SendAppends, Committable;
    var b := MaybeAdvanceCommit(a);
    if b.commitIndex > a.commitIndex {
      SameCommittable(a, b, b.commitIndex);
      SameCommittable(a, BroadcastAppend(b), b.commitIndex);
    }
  }

  lemma SameCommittable(a: State, b: State, k: nat)
    requires Committable(a, k)
    requires b.log == a.log && b.baseIndex == a.baseIndex && b.baseTerm == a.baseTerm && b.peers == a.peers
    requires b.currentTerm == a.currentTerm && b.matchIndex == a.matchIndex
    ensures Committable(b, k)
  {
    hide Matching;
  }

  lemma MatchFollows(s: State, e: C.Event, a: State, from: NodeId, acknowledged: nat)
    requires s.role == Leader && a.role == Leader && a.currentTerm == s.currentTerm && a.commitIndex == s.commitIndex
    requires a.baseIndex == s.baseIndex && s.log <= a.log
    ensures Follows(s, e, RecordMatch(a, from, acknowledged))
  {
    hide Follows, MaybeAdvanceCommit, BroadcastAppend;
    var matched := Max(acknowledged, Get(a.matchIndex, from, 0));
    Advances(s, e, a.(matchIndex := a.matchIndex[from := matched], nextIndex := a.nextIndex[from := matched + 1]));
  }

  lemma RewindIdles(s: State, from: NodeId, hint: nat)
    ensures Idles(s, Rewind(s, from, hint))
  {
    hide SendAppend;
  }

  lemma AppendRespFollows(s: State, e: C.Event)
    requires e.Receives? && e.packet.msg.AppendEntriesResp?
    ensures Follows(s, e, HandleAppendResp(s, e.packet.from, e.packet.msg))
  {
    hide Follows, Idles, RecordMatch, Rewind, BecomeFollower;
    var from, resp := e.packet.from, e.packet.msg;
    var a := s.(ackedSinceCheck := s.ackedSinceCheck + {from});
    FollowerIdles(s, resp.term, None);
    IdlesFollows(s, e, BecomeFollower(s, resp.term, None));
    Unmoved(s, e, s);
    if s.role == Leader {
      MatchFollows(s, e, a, from, Min(resp.matchIndex, LastIndex(a)));
      RewindIdles(a, from, resp.matchIndex);
      Relabelled(s, a, Rewind(a, from, resp.matchIndex));
      IdlesFollows(s, e, Rewind(a, from, resp.matchIndex));
    }
  }

  lemma Unmoved(s: State, e: C.Event, q: State)
    requires q == s.(ackedSinceCheck := q.ackedSinceCheck)
    ensures Follows(s, e, q)
  {
  }

  lemma Relabelled(s: State, a: State, q: State)
    requires a == s.(ackedSinceCheck := a.ackedSinceCheck) && Idles(a, q)
    ensures Idles(s, q)
  {
  }

  lemma SnapshotRespFollows(s: State, e: C.Event)
    requires e.Receives? && e.packet.msg.InstallSnapshotResp?
    ensures Follows(s, e, HandleInstallSnapshotResp(s, e.packet.from, e.packet.msg))
  {
    hide Follows, Idles, RecordMatch, BecomeFollower;
    var from, resp := e.packet.from, e.packet.msg;
    var a := s.(ackedSinceCheck := s.ackedSinceCheck + {from});
    FollowerIdles(s, resp.term, None);
    IdlesFollows(s, e, BecomeFollower(s, resp.term, None));
    Unmoved(s, e, s);
    Unmoved(s, e, a);
    if s.role == Leader {
      var sent := Get(a.snapshotInflight, from, 0);
      MatchFollows(s, e, a.(snapshotInflight := a.snapshotInflight - {from}), from, Min(resp.lastIncludedIndex, sent));
    }
  }

  lemma ProposeFollows(s: State, e: C.Event, command: Command)
    ensures Follows(s, e, Propose(s, command))
  {
    hide Follows, MaybeAdvanceCommit, BroadcastAppend;
    Unmoved(s, e, s);
    if s.role == Leader {
      Advances(s, e, s.(log := s.log + [Entry(s.currentTerm, LastIndex(s) + 1, Some(command))], dirty := true));
    }
  }

  lemma StepFollows(s: State, e: C.Event)
    requires e.Receives?
    ensures Follows(s, e, Step(s, e.packet.from, e.packet.msg))
  {
    hide Follows, HandleRequestVote, HandleVoteResp, HandleAppend, HandleAppendResp, HandleInstallSnapshot,
         HandleInstallSnapshotResp;
    var from, msg := e.packet.from, e.packet.msg;
    Unmoved(s, e, s);
    if Admissible(s, from, msg) {
      match msg
      case RequestVote(_, _, _, _, _) =>
        RequestVoteIdles(s, from, msg);
        IdlesFollows(s, e, HandleRequestVote(s, from, msg));
      case RequestVoteResp(_, _, _) =>
        VoteRespIdles(s, from, msg);
        IdlesFollows(s, e, HandleVoteResp(s, from, msg));
      case AppendEntries(_, _, _, _, _, _) => AppendFollows(s, e);
      case AppendEntriesResp(_, _, _) => AppendRespFollows(s, e);
      case InstallSnapshot(_, _, _, _, _) => SnapshotFollows(s, e);
      case InstallSnapshotResp(_, _, _) => SnapshotRespFollows(s, e);
    }
  }

  /** Every call follows this course. */
  lemma CallFollows(s: State, e: C.Event)
    requires e.Ticks? || e.Receives? || e.Proposes?
    ensures Follows(s, e, C.Called(s, e))
  {
    hide Follows, Tick, Step, Propose;
    match e
    case Ticks(_) =>
      TickIdles(s);
      IdlesFollows(s, e, Tick(s));
    case Receives(_) => StepFollows(s, e);
    case Proposes(_, command) => ProposeFollows(s, e, command);
  }
}
