/**
 * How often a leader retries on its own account: over a whole leadership, every
 * immediate retry to a peer is paid for by one step down of its next index.
 */
module RaftRetries {
  import opened Model
  import opened RaftSpec
  import L = RaftLocal
  import G = RaftProgress

  /** How many of `msgs` go to `p`. */
  function SentTo(msgs: seq<Addressed>, p: NodeId): nat {
    if msgs == [] then 0 else SentTo(msgs[..|msgs| - 1], p) + (if msgs[|msgs| - 1].to == p then 1 else 0)
  }

  lemma SentToSend(msgs: seq<Addressed>, m: Addressed, p: NodeId)
    ensures SentTo(msgs + [m], p) == SentTo(msgs, p) + if m.to == p then 1 else 0
  {
    assert (msgs + [m])[..|msgs|] == msgs;
  }

  /** Where the leader will resume with `p`; a peer it has no record of is taken to be at the start. */
  function Resume(s: State, p: NodeId): nat { Get(s.nextIndex, p, 1) }

  /** The call delivers a failed append. */
  predicate IsRefusal(c: L.Call) { c.CallStep? && c.msg.AppendEntriesResp? && !c.msg.success }

  /** The call delivers a success of `p` in `term`, of an append or of a snapshot. */
  predicate IsSuccess(c: L.Call, p: NodeId, term: nat) {
    && c.CallStep? && c.from == p && c.msg.term == term
    && ((c.msg.AppendEntriesResp? && c.msg.success) || (c.msg.InstallSnapshotResp? && c.msg.success))
  }

  /**
   * The messages to `p` that refusals cause over `calls`. Effects are taken after each call,
   * so `out` holds its own.
   */
  function Retries(x: L.Saved, calls: seq<L.Call>, p: NodeId): nat {
    if calls == [] then 0
    else
      var k := |calls| - 1;
      Retries(x, calls[..k], p) +
      if IsRefusal(calls[k]) then SentTo(L.Perform(L.PerformAll(x, calls[..k]).state, calls[k]).out, p) else 0
  }

  // ---- one call ---------------------------------------------------------

  /** A leader that goes on leading its term resumes with `p` where it did. */
  ghost predicate Steady(s: State, r: State, p: NodeId) {
    s.role == Leader && r.role == Leader && r.currentTerm == s.currentTerm ==> Resume(r, p) == Resume(s, p)
  }

  lemma TickSteady(s: State, p: NodeId)
    ensures Steady(s, Tick(s), p)
  {
    hide Heartbeat, Timeout, WaitForLeader;
    L.HeartbeatFrame(s);
  }

  lemma ProposeSteady(s: State, command: Command, p: NodeId)
    ensures Steady(s, Propose(s, command), p)
  {
    hide HighestCommittable, SendAppends;
  }

  lemma VoteSteady(s: State, from: NodeId, req: Message, p: NodeId)
    requires req.RequestVote?
    ensures Steady(s, HandleRequestVote(s, from, req), p)
  {
    hide AnswerVote, BecomeFollower;
    AdoptSteady(s, req.term);
    AnswerVoteFrame(if req.preVote then s else Adopt(s, req.term), from, req);
  }

  lemma AdoptSteady(s: State, term: nat)
    ensures Adopt(s, term) == s || Adopt(s, term).role != Leader
  {
    hide Timeout;
  }

  lemma AnswerVoteFrame(s: State, from: NodeId, req: Message)
    requires req.RequestVote?
    ensures var r := AnswerVote(s, from, req);
            r == s.(votedFor := r.votedFor, dirty := r.dirty, electionElapsed := r.electionElapsed,
                    electionTimeout := r.electionTimeout, drawn := r.drawn, out := r.out)
  {
    hide Timeout, LogOk;
    var r := AnswerVote(s, from, req);
    var b := ResetTimer(s.(votedFor := Some(from), dirty := true));
    assert r == s.(out := r.out) || r == b.(out := r.out);
  }

  lemma VoteRespSteady(s: State, from: NodeId, resp: Message, p: NodeId)
    requires resp.RequestVoteResp?
    ensures Steady(s, HandleVoteResp(s, from, resp), p)
  {
    hide MaybeWinElection, MaybeWinPreElection, Timeout;
  }

  /** A well-formed append or snapshot of the current term makes anyone a follower. */
  lemma AppendSteady(s: State, from: NodeId, req: Message, p: NodeId)
    requires req.AppendEntries?
    ensures Steady(s, HandleAppend(s, from, req), p)
  {
    hide EntriesAreContiguous, AcceptAppend, Timeout;
    var a := Adopt(s, req.term);
    if req.term >= s.currentTerm && EntriesAreContiguous(req) {
      G.AcceptAppendFrame(BecomeFollower(a, req.term, Some(from)), from, req);
    }
  }

  lemma SnapshotSteady(s: State, from: NodeId, req: Message, p: NodeId)
    requires req.InstallSnapshot?
    ensures Steady(s, HandleInstallSnapshot(s, from, req), p)
  {
    hide AcceptSnapshot, BecomeFollower;
    AdoptSteady(s, req.term);
    var a := Adopt(s, req.term);
    FollowerRole(a, req.term, Some(from));
    AcceptSnapshotRole(BecomeFollower(a, req.term, Some(from)), from, req);
  }

  lemma FollowerRole(s: State, term: nat, leader: Option<NodeId>)
    ensures BecomeFollower(s, term, leader).role == Follower
  {
    hide Timeout;
  }

  lemma AcceptSnapshotRole(s: State, from: NodeId, req: Message)
    requires req.InstallSnapshot?
    ensures AcceptSnapshot(s, from, req).role == s.role
  {
    hide TermAt;
  }

  /** Only the responding peer's record moves. */
  lemma RecordMatchSteady(s: State, from: NodeId, acknowledged: nat, p: NodeId)
    requires from != p
    ensures Resume(RecordMatch(s, from, acknowledged), p) == Resume(s, p)
  {
    hide HighestCommittable, SendAppends;
  }

  lemma AppendSuccessSteady(s: State, from: NodeId, resp: Message, p: NodeId)
    requires resp.AppendEntriesResp? && resp.success && (from != p || resp.term != s.currentTerm)
    ensures Steady(s, HandleAppendResp(s, from, resp), p)
  {
    hide RecordMatch, Timeout;
    var a := s.(ackedSinceCheck := s.ackedSinceCheck + {from});
    if from != p {
      RecordMatchSteady(a, from, Min(resp.matchIndex, LastIndex(a)), p);
    }
  }

  lemma SnapshotRespSteady(s: State, from: NodeId, resp: Message, p: NodeId)
    requires resp.InstallSnapshotResp? && (!resp.success || from != p || resp.term != s.currentTerm)
    ensures Steady(s, HandleInstallSnapshotResp(s, from, resp), p)
  {
    hide RecordMatch, Timeout;
    var a := s.(ackedSinceCheck := s.ackedSinceCheck + {from}, snapshotInflight := s.snapshotInflight - {from});
    if from != p {
      RecordMatchSteady(a, from, Min(resp.lastIncludedIndex, Get(s.snapshotInflight, from, 0)), p);
    }
  }

  /** Every call but a refusal, and but a success of `p`, leaves `p`'s record alone. */
  lemma CallSteady(s: State, c: L.Call, p: NodeId)
    requires !IsRefusal(c) && !IsSuccess(c, p, s.currentTerm)
    ensures Steady(s, L.Perform(s, c), p)
  {
    hide Steady, Tick, Propose, Compact, HandleRequestVote, HandleVoteResp, HandleAppend, HandleAppendResp,
      HandleInstallSnapshot, HandleInstallSnapshotResp;
    match c
    case CallTick => TickSteady(s, p);
    case CallPropose(command) => ProposeSteady(s, command, p);
    case CallCompact(index, data) => CompactSteady(s, index, data, p);
    case CallStep(from, msg) =>
      SelfSteady(s, p);
      match msg
      case RequestVote(_, _, _, _, _) => VoteSteady(s, from, msg, p);
      case RequestVoteResp(_, _, _) => VoteRespSteady(s, from, msg, p);
      case AppendEntries(_, _, _, _, _, _) => AppendSteady(s, from, msg, p);
      case AppendEntriesResp(_, _, _) => AppendSuccessSteady(s, from, msg, p);
      case InstallSnapshot(_, _, _, _, _) => SnapshotSteady(s, from, msg, p);
      case InstallSnapshotResp(_, _, _) => SnapshotRespSteady(s, from, msg, p);
  }

  lemma SelfSteady(s: State, p: NodeId)
    ensures Steady(s, s, p)
  {
  }

  lemma CompactSteady(s: State, index: nat, data: Replicated, p: NodeId)
    ensures Steady(s, Compact(s, index, data), p)
  {
    hide TermAt;
  }

  /** One refusal: either nothing is sent, or one message goes to the refusing peer and its `next` fell. */
  lemma RewindPays(s: State, from: NodeId, hint: nat, p: NodeId)
    ensures var r := Rewind(s, from, hint);
            && Resume(r, p) <= Resume(s, p) && (Resume(s, p) >= 1 ==> Resume(r, p) >= 1)
            && SentTo(r.out, p) + Resume(r, p) <= SentTo(s.out, p) + Resume(s, p)
  {
    hide TermAt, EntriesFrom;
    var r := Rewind(s, from, hint);
    if r.out != s.out {
      assert r.out == s.out + [r.out[|s.out|]] && r.out[|s.out|].to == from;
      SentToSend(s.out, r.out[|s.out|], p);
    }
  }

  lemma RefusalPays(s: State, c: L.Call, p: NodeId)
    requires IsRefusal(c) && s.role == Leader && s.out == []
    requires var r := L.Perform(s, c); r.role == Leader && r.currentTerm == s.currentTerm
    ensures var r := L.Perform(s, c);
            && Resume(r, p) <= Resume(s, p) && (Resume(s, p) >= 1 ==> Resume(r, p) >= 1)
            && SentTo(r.out, p) + Resume(r, p) <= Resume(s, p)
  {
    hide Rewind, Timeout;
    RewindPays(s.(ackedSinceCheck := s.ackedSinceCheck + {c.from}), c.from, c.msg.matchIndex, p);
    assert SentTo([], p) == 0;
  }

  // ---- over a leadership ------------------------------------------------

  /** Whoever leads the same term at two points led it at every point between. */
  lemma LedThroughout(s: State, r: State, q: State)
    requires G.Onward(s, r) && G.Onward(r, q)
    requires s.role == Leader && q.role == Leader && s.currentTerm == q.currentTerm
    ensures r.role == Leader && r.currentTerm == s.currentTerm
  {
  }

  lemma TakenOut(x: L.Saved, calls: seq<L.Call>)
    requires x.state.out == []
    ensures L.PerformAll(x, calls).state.out == []
  {
    hide L.Perform;
  }

  lemma Continues(x: L.Saved, calls: seq<L.Call>, k: nat)
    requires L.Valid(x.state) && x.disk == Durable(x.state) && k <= |calls|
    ensures var y := L.PerformAll(x, calls[..k]);
            L.PerformAll(x, calls) == L.PerformAll(y, calls[k..])
            && G.Onward(x.state, y.state) && G.Onward(y.state, L.PerformAll(x, calls).state)
  {
    hide L.PerformAll;
    assert calls[..k] + calls[k..] == calls;
    G.RunsChain(x, calls[..k], calls[k..]);
    G.RunProgresses(x, calls[..k]);
    L.RobustValid(x, calls[..k]);
    G.RunProgresses(L.PerformAll(x, calls[..k]), calls[k..]);
  }

  lemma {:induction false} RetriesPaid(x: L.Saved, calls: seq<L.Call>, p: NodeId)
    requires L.Valid(x.state) && x.disk == Durable(x.state) && x.state.out == []
    requires var y := L.PerformAll(x, calls);
             x.state.role == Leader && y.state.role == Leader && y.state.currentTerm == x.state.currentTerm
    requires forall k :: 0 <= k < |calls| ==> !IsSuccess(calls[k], p, x.state.currentTerm)
    requires Resume(x.state, p) >= 1
    ensures var y := L.PerformAll(x, calls);
            1 <= Resume(y.state, p) <= Resume(x.state, p)
              && Retries(x, calls, p) + Resume(y.state, p) <= Resume(x.state, p)
    decreases |calls|
  {
    hide L.Perform, SentTo, Resume, IsSuccess, IsRefusal;
    if calls != [] {
      var k := |calls| - 1;
      Continues(x, calls, k);
      var m := L.PerformAll(x, calls[..k]);
      LedThroughout(x.state, m.state, L.PerformAll(x, calls).state);
      RetriesPaid(x, calls[..k], p);
      TakenOut(x, calls[..k]);
      CallPays(m.state, calls[k], p);
      TakenSame(L.Perform(m.state, calls[k]), p);
    }
  }

  lemma TakenSame(s: State, p: NodeId)
    ensures Resume(TakeReady(s).1, p) == Resume(s, p)
  {
  }

  lemma CallPays(s: State, c: L.Call, p: NodeId)
    requires s.role == Leader && s.out == [] && !IsSuccess(c, p, s.currentTerm)
    requires var r := L.Perform(s, c); r.role == Leader && r.currentTerm == s.currentTerm
    ensures var r := L.Perform(s, c);
            && Resume(r, p) <= Resume(s, p) && (Resume(s, p) >= 1 ==> Resume(r, p) >= 1)
            && (IsRefusal(c) ==> SentTo(r.out, p) + Resume(r, p) <= Resume(s, p))
  {
    hide L.Perform, SentTo, Resume;
    if IsRefusal(c) {
      RefusalPays(s, c, p);
    } else {
      CallSteady(s, c, p);
    }
  }

  /**
   * Retries are bounded over a leadership: in any run of calls with arbitrary
   * messages, between two points at which a member leads the same term and with no
   * success of `p` in between, the messages that refusals make it send to `p` number
   * at most what `p`'s next index fell by, and that index stays at least 1.
   */
  lemma RetriesBounded(id: NodeId, peers: seq<NodeId>, cfg: Config, draws: nat -> nat, saved: Persisted,
                       calls: seq<L.Call>, more: seq<L.Call>, p: NodeId)
    requires L.ValidPersisted(saved)
    requires var x := L.Saved(New(id, peers, cfg, draws, saved), saved);
             var a, b := L.PerformAll(x, calls).state, L.PerformAll(x, calls + more).state;
             && a.role == Leader && b.role == Leader && a.currentTerm == b.currentTerm
             && (forall k :: 0 <= k < |more| ==> !IsSuccess(more[k], p, a.currentTerm))
    ensures var x := L.Saved(New(id, peers, cfg, draws, saved), saved);
            var y := L.PerformAll(x, calls);
            var a, b := y.state, L.PerformAll(x, calls + more).state;
            && 1 <= Resume(b, p) <= Resume(a, p)
            && Retries(y, more, p) <= Resume(a, p) - Resume(b, p)
  {
    hide L.PerformAll, Retries, L.ValidPersisted;
    var x := L.Saved(New(id, peers, cfg, draws, saved), saved);
    L.RobustValid(x, calls);
    TakenOut(x, calls);
    G.Bookkeeping(id, peers, cfg, draws, saved, calls, []);
    G.RunsChain(x, calls, more);
    RetriesPaid(L.PerformAll(x, calls), more, p);
  }
}
