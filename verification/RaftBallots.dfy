/**
 * What a member does with votes, call by call and whatever it is sent: when it
 * asks for one, when it grants one, and what it leads on.
 */
module RaftBallots {
  import opened Model
  import opened RaftSpec
  import C = RaftCluster
  import G = RaftProgress
  import L = RaftLocal

  predicate IsGrant(m: Message) { m.RequestVoteResp? && m.granted && !m.preVote }

  predicate IsRequest(m: Message) { m.RequestVote? && !m.preVote }

  predicate IsBallot(m: Message) { IsGrant(m) || IsRequest(m) }

  /** `now` continues `was` with messages that are not ballots. */
  predicate Adds(was: seq<Addressed>, now: seq<Addressed>) {
    was <= now && forall k :: |was| <= k < |now| ==> !IsBallot(now[k].msg)
  }

  /** Whoever campaigns or leads has voted for itself, and whoever leads has counted a quorum. */
  ghost predicate Entitled(s: State) {
    && (L.InOffice(s) ==> s.votedFor == Some(s.id) && s.id in s.votes)
    && (s.role == Leader ==> |s.votes| >= Quorum(s))
  }

  /** No ballot is cast, and office is at most given up. */
  ghost predicate Calm(s: State, r: State) {
    && r.id == s.id && r.peers == s.peers && Adds(s.out, r.out)
    && (L.InOffice(r) ==>
          r.role == s.role && r.currentTerm == s.currentTerm && r.votedFor == s.votedFor && r.votes == s.votes)
  }

  lemma CalmTransitive(s: State, r: State, q: State)
    requires Calm(s, r) && Calm(r, q)
    ensures Calm(s, q)
  {
  }

  lemma Unmoved(s: State, r: State)
    requires r.id == s.id && r.peers == s.peers && r.role == s.role && r.currentTerm == s.currentTerm
    requires r.votedFor == s.votedFor && r.votes == s.votes && Adds(s.out, r.out)
    ensures Calm(s, r)
  {
  }

  lemma OutOfOffice(s: State, r: State)
    requires r.id == s.id && r.peers == s.peers && !L.InOffice(r) && Adds(s.out, r.out)
    ensures Calm(s, r)
  {
  }

  lemma SendCalm(s: State, to: NodeId, msg: Message)
    requires !IsBallot(msg)
    ensures Calm(s, Send(s, to, msg))
  {
    Unmoved(s, Send(s, to, msg));
  }

  lemma BecomeFollowerCalm(s: State, t: nat, leader: Option<NodeId>)
    ensures Calm(s, BecomeFollower(s, t, leader)) && BecomeFollower(s, t, leader).role == Follower
  {
    hide Timeout;
    OutOfOffice(s, BecomeFollower(s, t, leader));
  }

  lemma AdoptCalm(s: State, t: nat)
    ensures Calm(s, Adopt(s, t))
  {
    hide Calm, BecomeFollower;
    Unmoved(s, s);
    BecomeFollowerCalm(s, t, None);
  }

  lemma SendAppendCalm(s: State, p: NodeId)
    ensures Calm(s, SendAppend(s, p))
  {
    hide TermAt, EntriesFrom;
    var r := SendAppend(s, p);
    assert Adds(s.out, r.out);
    Unmoved(s, r);
  }

  lemma {:induction false} SendAppendsCalm(s: State, ps: seq<NodeId>)
    ensures Calm(s, SendAppends(s, ps))
  {
    hide Calm, SendAppend;
    if ps == [] {
      Unmoved(s, s);
    } else {
      var a := SendAppends(s, ps[..|ps| - 1]);
      SendAppendsCalm(s, ps[..|ps| - 1]);
      SendAppendCalm(a, ps[|ps| - 1]);
      CalmTransitive(s, a, SendAppends(s, ps));
    }
  }

  // ---- calls that cast nothing ------------------------------------------

  lemma LeaderTickCalm(s: State)
    ensures Calm(s, CheckQuorum(Heartbeat(s)))
  {
    hide Calm, SendAppends, CheckQuorum;
    var a := s.(heartbeatElapsed := s.heartbeatElapsed + 1);
    Unmoved(s, a);
    var b := a.(heartbeatElapsed := 0);
    Unmoved(s, b);
    SendAppendsCalm(b, b.peers);
    CalmTransitive(s, b, BroadcastAppend(b));
    CheckQuorumCalm(Heartbeat(s));
    CalmTransitive(s, Heartbeat(s), CheckQuorum(Heartbeat(s)));
  }

  lemma CheckQuorumCalm(s: State)
    ensures Calm(s, CheckQuorum(s))
  {
    hide Calm, BecomeFollower, Timeout;
    var a := s.(electionElapsed := s.electionElapsed + 1);
    var b := a.(ackedSinceCheck := {});
    Unmoved(s, a);
    Unmoved(s, b);
    Unmoved(s, ResetTimer(b));
    BecomeFollowerCalm(b, b.currentTerm, None);
    CalmTransitive(s, b, BecomeFollower(b, b.currentTerm, None));
  }

  lemma HandleAppendCalm(s: State, from: NodeId, req: Message)
    requires req.AppendEntries?
    ensures Calm(s, HandleAppend(s, from, req))
  {
    hide Calm, EntriesAreContiguous, AcceptAppend, Adopt, BecomeFollower;
    var r := HandleAppend(s, from, req);
    if req.term < s.currentTerm {
      SendCalm(s, from, AppendEntriesResp(s.currentTerm, false, 0));
    } else {
      var a := Adopt(s, req.term);
      AdoptCalm(s, req.term);
      if EntriesAreContiguous(req) {
        var b := BecomeFollower(a, req.term, Some(from));
        BecomeFollowerCalm(a, req.term, Some(from));
        AcceptAppendCalm(b, from, req);
        CalmTransitive(a, b, r);
      } else {
        SendCalm(a, from, AppendEntriesResp(a.currentTerm, false, LastIndex(a)));
      }
      CalmTransitive(s, a, r);
    }
  }

  lemma AcceptAppendCalm(s: State, from: NodeId, req: Message)
    requires req.AppendEntries? && s.role == Follower
    ensures Calm(s, AcceptAppend(s, from, req))
  {
    hide Splice, TermAt;
    G.AcceptAppendFrame(s, from, req);
    G.SpliceFrame(s, req.entries, req.prevLogIndex);
    var r := AcceptAppend(s, from, req);
    assert r.out == s.out + [r.out[|s.out|]] && r.out[|s.out|].msg.AppendEntriesResp?;
    hide AcceptAppend;
    OutOfOffice(s, r);
  }

  lemma HandleInstallSnapshotCalm(s: State, from: NodeId, req: Message)
    requires req.InstallSnapshot?
    ensures Calm(s, HandleInstallSnapshot(s, from, req))
  {
    hide Calm, AcceptSnapshot, Adopt, BecomeFollower;
    var r := HandleInstallSnapshot(s, from, req);
    if req.term < s.currentTerm {
      SendCalm(s, from, InstallSnapshotResp(s.currentTerm, false, 0));
    } else {
      var a := Adopt(s, req.term);
      AdoptCalm(s, req.term);
      if SnapshotMetadataIsValid(req) {
        var b := BecomeFollower(a, req.term, Some(from));
        BecomeFollowerCalm(a, req.term, Some(from));
        AcceptSnapshotCalm(b, from, req);
        CalmTransitive(a, b, r);
      } else {
        SendCalm(a, from, InstallSnapshotResp(a.currentTerm, false, 0));
      }
      CalmTransitive(s, a, r);
    }
  }

  lemma AcceptSnapshotCalm(s: State, from: NodeId, req: Message)
    requires req.InstallSnapshot? && s.role == Follower
    ensures Calm(s, AcceptSnapshot(s, from, req))
  {
    hide TermAt;
    OutOfOffice(s, AcceptSnapshot(s, from, req));
  }

  lemma MaybeAdvanceCommitCalm(s: State)
    ensures Calm(s, MaybeAdvanceCommit(s))
  {
    hide HighestCommittable;
    Unmoved(s, MaybeAdvanceCommit(s));
  }

  lemma RecordMatchCalm(s: State, from: NodeId, acknowledged: nat)
    ensures Calm(s, RecordMatch(s, from, acknowledged))
  {
    hide Calm, MaybeAdvanceCommit, SendAppends;
    var a := G.Matched(s, from, acknowledged);
    Unmoved(s, a);
    var b := MaybeAdvanceCommit(a);
    MaybeAdvanceCommitCalm(a);
    CalmTransitive(s, a, b);
    SendAppendsCalm(b, b.peers);
    CalmTransitive(s, b, BroadcastAppend(b));
  }

  lemma RewindCalm(s: State, from: NodeId, hint: nat)
    ensures Calm(s, Rewind(s, from, hint))
  {
    hide Calm, SendAppend;
    var previous := Get(s.nextIndex, from, 1);
    var next := Min(hint + 1, Max(Minus(previous, 1), 1));
    var a := s.(nextIndex := s.nextIndex[from := Min(next, previous)]);
    Unmoved(s, a);
    SendAppendCalm(a, from);
    CalmTransitive(s, a, SendAppend(a, from));
  }

  lemma HandleAppendRespCalm(s: State, from: NodeId, resp: Message)
    requires resp.AppendEntriesResp?
    ensures Calm(s, HandleAppendResp(s, from, resp))
  {
    hide Calm, BecomeFollower, RecordMatch, Rewind;
    BecomeFollowerCalm(s, resp.term, None);
    Unmoved(s, s);
    var a := s.(ackedSinceCheck := s.ackedSinceCheck + {from});
    Unmoved(s, a);
    var m := Min(resp.matchIndex, LastIndex(a));
    RecordMatchCalm(a, from, m);
    CalmTransitive(s, a, RecordMatch(a, from, m));
    RewindCalm(a, from, resp.matchIndex);
    CalmTransitive(s, a, Rewind(a, from, resp.matchIndex));
  }

  lemma HandleInstallSnapshotRespCalm(s: State, from: NodeId, resp: Message)
    requires resp.InstallSnapshotResp?
    ensures Calm(s, HandleInstallSnapshotResp(s, from, resp))
  {
    hide Calm, BecomeFollower, RecordMatch;
    BecomeFollowerCalm(s, resp.term, None);
    Unmoved(s, s);
    Unmoved(s, s.(ackedSinceCheck := s.ackedSinceCheck + {from}));
    var a := s.(ackedSinceCheck := s.ackedSinceCheck + {from}, snapshotInflight := s.snapshotInflight - {from});
    Unmoved(s, a);
    var m := Min(resp.lastIncludedIndex, Get(s.snapshotInflight, from, 0));
    RecordMatchCalm(a, from, m);
    CalmTransitive(s, a, RecordMatch(a, from, m));
  }

  lemma ProposeCalm(s: State, command: Command)
    ensures Calm(s, Propose(s, command))
  {
    hide Calm, MaybeAdvanceCommit, SendAppends;
    Unmoved(s, s);
    var e := Entry(s.currentTerm, LastIndex(s) + 1, Some(command));
    var a := s.(log := s.log + [e], dirty := true);
    Unmoved(s, a);
    var b := MaybeAdvanceCommit(a);
    MaybeAdvanceCommitCalm(a);
    CalmTransitive(s, a, b);
    SendAppendsCalm(b, b.peers);
    CalmTransitive(s, b, BroadcastAppend(b));
  }

  // ---- calls that cast --------------------------------------------------

  /** What the call delivers, if anything. */
  datatype Cause = Nothing | Heard(from: NodeId, msg: Message)

  function CauseOf(e: C.Event): Cause {
    if e.Receives? then Heard(e.packet.from, e.packet.msg) else Nothing
  }

  /** A ballot that goes out rests on what the member has just recorded, and is to be saved. */
  ghost predicate Justified(s: State, r: State, a: Addressed, c: Cause) {
    && r.dirty && a.msg.term == r.currentTerm
    && (IsRequest(a.msg) ==> r.votedFor == Some(r.id) && s.currentTerm < r.currentTerm)
    && (IsGrant(a.msg) ==>
          && r.votedFor == Some(a.to) && a.to in s.peers
          && c.Heard? && c.from == a.to && IsRequest(c.msg) && c.msg.term == a.msg.term
          && (s.currentTerm < r.currentTerm
              || (s.currentTerm == r.currentTerm && (s.votedFor.None? || s.votedFor == Some(a.to)))))
  }

  /** A vote the member counts: its own, one it had, or the one it has just heard. */
  ghost predicate Counts(s: State, r: State, v: NodeId, c: Cause) {
    || v == r.id
    || (L.InOffice(s) && s.currentTerm == r.currentTerm && v in s.votes)
    || (v in s.peers && c == Heard(v, RequestVoteResp(r.currentTerm, true, false)))
  }

  /** What every call does with votes. */
  ghost predicate Cast(s: State, r: State, c: Cause) {
    && r.id == s.id && r.peers == s.peers && (Entitled(s) ==> Entitled(r))
    && (L.InOffice(r) ==> forall v :: v in r.votes ==> Counts(s, r, v, c))
    && s.out <= r.out
    && (forall k :: |s.out| <= k < |r.out| && IsBallot(r.out[k].msg) ==> Justified(s, r, r.out[k], c))
  }

  lemma CalmCasts(s: State, r: State, c: Cause)
    requires Calm(s, r)
    ensures Cast(s, r, c)
  {
  }

  lemma CastAfter(s: State, a: State, r: State, c: Cause)
    requires Calm(s, a) && Cast(a, r, c) && a.currentTerm == s.currentTerm && a.votedFor == s.votedFor
    ensures Cast(s, r, c)
  {
    hide Calm, Cast, Entitled;
    CalmParts(s, a);
    CastParts(a, r, c);
    assert Entitled(s) ==> Entitled(r);
    if L.InOffice(r) {
      forall v | v in r.votes ensures Counts(s, r, v, c) {
        assert Counts(a, r, v, c);
      }
    }
    forall k | |s.out| <= k < |r.out| && IsBallot(r.out[k].msg) ensures Justified(s, r, r.out[k], c) {
      if k >= |a.out| {
        assert Justified(a, r, r.out[k], c);
      }
    }
    CastFrom(s, r, c);
  }

  lemma CalmParts(s: State, a: State)
    requires Calm(s, a)
    ensures a.id == s.id && a.peers == s.peers && Adds(s.out, a.out) && (Entitled(s) ==> Entitled(a))
    ensures L.InOffice(a) ==> L.InOffice(s) && a.currentTerm == s.currentTerm && a.votes == s.votes
  {
  }

  lemma CastParts(s: State, r: State, c: Cause)
    requires Cast(s, r, c)
    ensures r.id == s.id && r.peers == s.peers && (Entitled(s) ==> Entitled(r)) && s.out <= r.out
    ensures L.InOffice(r) ==> forall v :: v in r.votes ==> Counts(s, r, v, c)
    ensures forall k :: |s.out| <= k < |r.out| && IsBallot(r.out[k].msg) ==> Justified(s, r, r.out[k], c)
  {
  }

  lemma CastFrom(s: State, r: State, c: Cause)
    requires r.id == s.id && r.peers == s.peers && (Entitled(s) ==> Entitled(r)) && s.out <= r.out
    requires L.InOffice(r) ==> forall v :: v in r.votes ==> Counts(s, r, v, c)
    requires forall k :: |s.out| <= k < |r.out| && IsBallot(r.out[k].msg) ==> Justified(s, r, r.out[k], c)
    ensures Cast(s, r, c)
  {
  }

  /** Taking office, or not: nothing but the role changes that votes depend on. */
  ghost predicate Won(s: State, r: State) {
    && r.id == s.id && r.peers == s.peers && r.currentTerm == s.currentTerm && r.votedFor == s.votedFor
    && r.votes == s.votes && (s.dirty ==> r.dirty) && Adds(s.out, r.out)
    && (r.role == s.role || (s.role == Candidate && r.role == Leader && |s.votes| >= Quorum(s)))
  }

  lemma MaybeWinElectionWon(s: State)
    ensures Won(s, MaybeWinElection(s))
  {
    hide TakeOffice, ResetTimer, SendAppends;
    if s.role == Candidate && |s.votes| >= Quorum(s) {
      var a := ResetTimer(TakeOffice(s));
      OfficeFrame(s);
      SendAppendsCalm(a, a.peers);
      SendAppendsFrame(a);
    }
  }

  lemma OfficeFrame(s: State)
    ensures var a := ResetTimer(TakeOffice(s));
            && a.id == s.id && a.peers == s.peers && a.currentTerm == s.currentTerm && a.votedFor == s.votedFor
            && a.votes == s.votes && a.dirty && a.out == s.out && a.role == Leader
  {
    hide Timeout, AllAt;
  }

  lemma SendAppendsFrame(s: State)
    ensures var r := SendAppends(s, s.peers); r.dirty == s.dirty && r.role == s.role && r.votes == s.votes
  {
  }

  lemma WonCasts(s: State, r: State, c: Cause)
    requires Won(s, r)
    ensures Cast(s, r, c)
  {
  }

  lemma CastThenWon(s: State, a: State, r: State, c: Cause)
    requires Cast(s, a, c) && Won(a, r)
    ensures Cast(s, r, c)
  {
    hide Cast, Entitled;
    CastParts(s, a, c);
    WonCasts(a, r, c);
    CastParts(a, r, c);
    if L.InOffice(r) {
      forall v | v in r.votes ensures Counts(s, r, v, c) {
        assert Counts(s, a, v, c);
      }
    }
    forall k | |s.out| <= k < |r.out| && IsBallot(r.out[k].msg) ensures Justified(s, r, r.out[k], c) {
      assert k < |a.out| && a.out[k] == r.out[k];
      assert Justified(s, a, a.out[k], c);
    }
    CastFrom(s, r, c);
  }

  lemma {:induction false} SendAllOut(s: State, ps: seq<NodeId>, msg: Message)
    ensures var r := SendAll(s, ps, msg);
            s.out <= r.out && forall k :: |s.out| <= k < |r.out| ==> r.out[k].msg == msg
  {
    if ps != [] {
      SendAllOut(s, ps[..|ps| - 1], msg);
    }
  }

  lemma StartElectionCasts(s: State, c: Cause)
    ensures Cast(s, StartElection(s), c)
  {
    hide MaybeWinElection, Timeout, SendAll;
    var a := Campaigning(s);
    var msg := RequestVote(a.currentTerm, a.id, LastIndex(a), LastTerm(a), false);
    var b := SendAll(a, a.peers, msg);
    SendAllOut(a, a.peers, msg);
    CastFrom(s, b, c);
    MaybeWinElectionWon(b);
    CastThenWon(s, b, MaybeWinElection(b), c);
  }

  lemma MaybeWinPreElectionCasts(s: State, c: Cause)
    ensures Cast(s, MaybeWinPreElection(s), c)
  {
    hide Cast, StartElection, Calm;
    Unmoved(s, s);
    CalmCasts(s, s, c);
    StartElectionCasts(s, c);
  }

  lemma StartPreElectionCasts(s: State, c: Cause)
    ensures Cast(s, StartPreElection(s), c)
  {
    hide Cast, MaybeWinPreElection, Calm, Timeout, SendAll;
    var a := ResetTimer(s).(role := PreCandidate, votes := {s.id});
    var msg := RequestVote(a.currentTerm + 1, a.id, LastIndex(a), LastTerm(a), true);
    var b := SendAll(a, a.peers, msg);
    SendAllOut(a, a.peers, msg);
    OutOfOffice(s, b);
    MaybeWinPreElectionCasts(b, c);
    CastAfter(s, b, MaybeWinPreElection(b), c);
  }

  lemma TickCasts(s: State)
    ensures Cast(s, Tick(s), Nothing)
  {
    hide Cast, Calm, CheckQuorum, Heartbeat, StartPreElection;
    if s.role == Leader {
      LeaderTickCalm(s);
      CalmCasts(s, Tick(s), Nothing);
    } else {
      var a := s.(electionElapsed := s.electionElapsed + 1);
      Unmoved(s, a);
      CalmCasts(s, a, Nothing);
      StartPreElectionCasts(a, Nothing);
      CastAfter(s, a, StartPreElection(a), Nothing);
    }
  }

  lemma HandleVoteRespCasts(s: State, from: NodeId, resp: Message)
    requires resp.RequestVoteResp? && from in s.peers
    ensures Cast(s, HandleVoteResp(s, from, resp), Heard(from, resp))
  {
    var c := Heard(from, resp);
    var a := s.(votes := s.votes + {from});
    if s.role == Candidate && resp.granted && !resp.preVote && resp.term == s.currentTerm {
      CastFrom(s, a, c);
      hide Cast, MaybeWinElection, Entitled;
      MaybeWinElectionWon(a);
      CastThenWon(s, a, MaybeWinElection(a), c);
    } else if s.role == PreCandidate && resp.granted && resp.preVote && resp.term <= s.currentTerm {
      OutOfOffice(s, a);
      hide Cast, MaybeWinPreElection, Calm;
      MaybeWinPreElectionCasts(a, c);
      CastAfter(s, a, MaybeWinPreElection(a), c);
    } else {
      hide Cast, Calm, BecomeFollower;
      Unmoved(s, s);
      CalmCasts(s, s, c);
      BecomeFollowerCalm(s, resp.term, None);
      CalmCasts(s, BecomeFollower(s, resp.term, None), c);
    }
  }

  ghost predicate Granting(a: State, from: NodeId, req: Message)
    requires req.RequestVote?
  {
    && !req.preVote && req.term == a.currentTerm && (a.votedFor.None? || a.votedFor == Some(from))
    && LogOk(a, req.lastLogIndex, req.lastLogTerm)
  }

  lemma AnswerVoteIs(a: State, from: NodeId, req: Message)
    requires req.RequestVote?
    ensures var r := AnswerVote(a, from, req);
            if Granting(a, from, req)
            then r == Send(ResetTimer(a.(votedFor := Some(from), dirty := true)), from,
                           RequestVoteResp(a.currentTerm, true, false))
            else Calm(a, r)
  {
    hide Timeout, LogOk, Calm;
    var r := AnswerVote(a, from, req);
    if !Granting(a, from, req) {
      assert r.out == a.out + [r.out[|a.out|]] && !IsBallot(r.out[|a.out|].msg) && r == a.(out := r.out);
      Unmoved(a, r);
    }
  }

  lemma HandleRequestVoteCasts(s: State, from: NodeId, req: Message)
    requires req.RequestVote? && from in s.peers && s.id !in s.peers
    ensures Cast(s, HandleRequestVote(s, from, req), Heard(from, req))
  {
    hide Calm, Cast, AnswerVote, Adopt, ResetTimer;
    var c := Heard(from, req);
    Unmoved(s, s);
    AdoptCalm(s, req.term);
    var a := if req.preVote then s else Adopt(s, req.term);
    if req.term == 0 {
      SendCalm(s, from, RequestVoteResp(s.currentTerm, false, req.preVote));
      CalmCasts(s, HandleRequestVote(s, from, req), c);
    } else {
      AnswerVoteIs(a, from, req);
      if Granting(a, from, req) {
        GrantCasts(s, a, ResetTimer(a.(votedFor := Some(from), dirty := true)), from, req);
      } else {
        CalmTransitive(s, a, AnswerVote(a, from, req));
        CalmCasts(s, AnswerVote(a, from, req), c);
      }
    }
  }

  /** Granting a vote while in office can only be to oneself, which no peer asks for. */
  lemma GrantCasts(s: State, a: State, b: State, from: NodeId, req: Message)
    requires req.RequestVote? && IsRequest(req) && from in s.peers && from != s.id
    requires a == Adopt(s, req.term) && req.term == a.currentTerm
    requires (a.votedFor.None? || a.votedFor == Some(from))
             && b == ResetTimer(a.(votedFor := Some(from), dirty := true))
    ensures Cast(s, Send(b, from, RequestVoteResp(a.currentTerm, true, false)), Heard(from, req))
  {
  }

  lemma StepCasts(s: State, from: NodeId, msg: Message)
    requires s.id !in s.peers
    ensures Cast(s, Step(s, from, msg), Heard(from, msg))
  {
    hide Cast, Calm, HandleRequestVote, HandleVoteResp, HandleAppend, HandleAppendResp, HandleInstallSnapshot,
      HandleInstallSnapshotResp;
    var c := Heard(from, msg);
    if !Admissible(s, from, msg) {
      Unmoved(s, s);
      CalmCasts(s, s, c);
    } else {
      match msg {
        case RequestVote(_, _, _, _, _) => HandleRequestVoteCasts(s, from, msg);
        case RequestVoteResp(_, _, _) => HandleVoteRespCasts(s, from, msg);
        case AppendEntries(_, _, _, _, _, _) =>
          HandleAppendCalm(s, from, msg);
          CalmCasts(s, HandleAppend(s, from, msg), c);
        case AppendEntriesResp(_, _, _) =>
          HandleAppendRespCalm(s, from, msg);
          CalmCasts(s, HandleAppendResp(s, from, msg), c);
        case InstallSnapshot(_, _, _, _, _) =>
          HandleInstallSnapshotCalm(s, from, msg);
          CalmCasts(s, HandleInstallSnapshot(s, from, msg), c);
        case InstallSnapshotResp(_, _, _) =>
          HandleInstallSnapshotRespCalm(s, from, msg);
          CalmCasts(s, HandleInstallSnapshotResp(s, from, msg), c);
      }
    }
  }

  /** Every call, whatever it delivers. */
  lemma CallCasts(s: State, e: C.Event)
    requires s.id !in s.peers && (e.Ticks? || e.Receives? || e.Proposes?)
    ensures Cast(s, C.Called(s, e), CauseOf(e))
  {
    hide Cast, Calm, Tick, Step, Propose;
    match e
    case Ticks(_) => TickCasts(s);
    case Receives(p) => StepCasts(s, p.from, p.msg);
    case Proposes(_, command) =>
      ProposeCalm(s, command);
      CalmCasts(s, Propose(s, command), Nothing);
  }
}
