/**
 * What single calls do to a member of a small group, step by step: the
 * scenes that concrete runs are made of.
 */
module RaftScenes {
  import opened Model
  import opened RaftSpec
  import opened RaftSplice
  import L = RaftLocal

  /** A member of a group of at most three without a snapshot, its effects taken. */
  ghost predicate Plain(s: State, me: NodeId, peers: seq<NodeId>, term: nat, vote: Option<NodeId>, log: seq<Entry>,
                        role: Role) {
    && s.id == me && s.peers == peers && me !in peers && |peers| <= 2 && Distinct(peers)
    && s.currentTerm == term && s.votedFor == vote && s.log == log && s.role == role
    && s.baseIndex == 0 && s.baseTerm == 0 && s.snapshot == None && !s.pendingRestore
    && s.out == [] && !s.dirty && s.lastApplied == s.commitIndex
  }

  /** A new member, or one that has only voted. */
  lemma NewIsPlain(me: NodeId, peers: seq<NodeId>, cfg: Config, draws: nat -> nat, term: nat, vote: Option<NodeId>)
    requires me !in peers && |peers| <= 2 && Distinct(peers)
    ensures var s := New(me, peers, cfg, draws, Persisted(term, vote, 0, [], 0, 0, None));
            Plain(s, me, peers, term, vote, [], Follower) && s.commitIndex == 0 && s.leaderId.None?
  {
  }

  lemma NewFields(me: NodeId, peers: seq<NodeId>, cfg: Config, draws: nat -> nat)
    ensures var s := New(me, peers, cfg, draws, FRESH); s.peers == peers && s.cfg == cfg && s.draws == draws
  {
  }

  function EndTerm(log: seq<Entry>): nat { if log == [] then 0 else log[|log| - 1].term }

  // ---- sending ----------------------------------------------------------

  lemma {:induction false} SendAllReaches(s: State, ps: seq<NodeId>, msg: Message, p: NodeId)
    requires p in ps
    ensures Addressed(p, msg) in SendAll(s, ps, msg).out
  {
    var k := |ps| - 1;
    assert SendAll(s, ps, msg).out[|SendAll(s, ps[..k], msg).out|] == Addressed(ps[k], msg);
    if p != ps[k] {
      assert p in ps[..k];
      SendAllReaches(s, ps[..k], msg, p);
    }
  }

  /** What a leader that has compacted nothing sends to `p`. */
  function AppendTo(s: State, p: NodeId): Message {
    var next := Get(s.nextIndex, p, LastIndex(s) + 1);
    AppendEntries(s.currentTerm, s.id, Minus(next, 1), TermAt(s, Minus(next, 1)), EntriesFrom(s, next), s.commitIndex)
  }

  ghost predicate Uncompacted(s: State) {
    s.baseIndex == 0 && forall p :: p in s.nextIndex ==> s.nextIndex[p] >= 1
  }

  lemma SendAppendIs(s: State, p: NodeId)
    requires Uncompacted(s)
    ensures SendAppend(s, p) == Send(s, p, AppendTo(s, p))
  {
  }

  lemma {:induction false} BroadcastReaches(s: State, ps: seq<NodeId>, p: NodeId)
    requires p in ps && Uncompacted(s)
    ensures Addressed(p, AppendTo(s, p)) in SendAppends(s, ps).out
  {
    hide TermAt, EntriesFrom;
    var k := |ps| - 1;
    var a := SendAppends(s, ps[..k]);
    SendAppendIs(a, ps[k]);
    SameAppend(s, a, ps[k]);
    assert SendAppends(s, ps).out[|a.out|] == Addressed(ps[k], AppendTo(s, ps[k]));
    if p != ps[k] {
      assert p in ps[..k];
      BroadcastReaches(s, ps[..k], p);
    }
  }

  lemma SameAppend(s: State, a: State, p: NodeId)
    requires a == s.(out := a.out, snapshotInflight := a.snapshotInflight)
    ensures AppendTo(a, p) == AppendTo(s, p)
  {
  }

  // ---- elections --------------------------------------------------------

  /** The next tick ends the member's patience. */
  predicate Due(s: State) { s.electionElapsed + 1 >= s.electionTimeout }

  /** A tick of a member that is still patient. */
  lemma Waits(s: State, me: NodeId, peers: seq<NodeId>, term: nat, vote: Option<NodeId>, log: seq<Entry>)
    requires Plain(s, me, peers, term, vote, log, Follower) && !Due(s)
    ensures var r := TakeReady(Tick(s)).1;
            && Plain(r, me, peers, term, vote, log, Follower) && r.commitIndex == s.commitIndex
            && r.leaderId == s.leaderId && r.electionTimeout == s.electionTimeout
            && r.electionElapsed == s.electionElapsed + 1
  {
    hide Batch, StartPreElection;
  }

  /** A silent member asks for pre-votes. */
  lemma AsksFirst(s: State, me: NodeId, peers: seq<NodeId>, term: nat, vote: Option<NodeId>, log: seq<Entry>, p: NodeId)
    requires Plain(s, me, peers, term, vote, log, Follower) && p in peers && Due(s)
    ensures var (ready, r) := TakeReady(Tick(s));
            && Plain(r, me, peers, term, vote, log, PreCandidate) && r.votes == {me} && r.commitIndex == s.commitIndex
            && Addressed(p, RequestVote(term + 1, me, |log|, EndTerm(log), true)) in ready.messages
  {
    hide SendAll, StartElection, Batch;
    var a := ResetTimer(s.(electionElapsed := s.electionElapsed + 1)).(role := PreCandidate, votes := {me});
    SendAllReaches(a, peers, RequestVote(term + 1, me, |log|, EndTerm(log), true), p);
    assert |a.votes| == 1;
  }

  /** Whoever follows nobody grants a pre-vote to an up-to-date log. */
  lemma PreGrants(s: State, me: NodeId, peers: seq<NodeId>, term: nat, vote: Option<NodeId>, log: seq<Entry>,
                  from: NodeId, req: Message)
    requires Plain(s, me, peers, term, vote, log, Follower) && from in peers && s.leaderId.None?
    requires req.RequestVote? && req.preVote && req.term >= term && req.term > 0 && req.candidateId == from
    requires LogOk(s, req.lastLogIndex, req.lastLogTerm)
    ensures var (ready, r) := TakeReady(Step(s, from, req));
            && Plain(r, me, peers, term, vote, log, Follower) && r.leaderId.None? && r.commitIndex == s.commitIndex
            && ready.persist.None? && Addressed(from, RequestVoteResp(term, true, true)) in ready.messages
  {
    hide Batch, LogOk;
    assert Step(s, from, req) == Send(s, from, RequestVoteResp(term, true, true));
    assert Step(s, from, req).out[0] == Addressed(from, RequestVoteResp(term, true, true));
  }

  lemma EmptyLogOk(s: State, me: NodeId, peers: seq<NodeId>, term: nat, vote: Option<NodeId>, req: Message)
    requires Plain(s, me, peers, term, vote, [], Follower) && req.RequestVote?
    ensures LogOk(s, req.lastLogIndex, req.lastLogTerm)
  {
  }

  /** A pre-vote from a later term only moves the asker on to that term. */
  lemma CatchesTerm(s: State, me: NodeId, peers: seq<NodeId>, term: nat, vote: Option<NodeId>, log: seq<Entry>,
                    role: Role,
                    from: NodeId, later: nat)
    requires Plain(s, me, peers, term, vote, log, role) && from in peers && later > term
    ensures var r := TakeReady(Step(s, from, RequestVoteResp(later, true, true))).1;
            Plain(r, me, peers, later, None, log, Follower) && r.leaderId.None? && r.commitIndex == s.commitIndex
  {
    hide Batch;
    assert Step(s, from, RequestVoteResp(later, true, true)) == BecomeFollower(s, later, None);
  }

  /** Two pre-votes make a candidate of the next term. */
  lemma Campaigns(s: State, me: NodeId, peers: seq<NodeId>, term: nat, vote: Option<NodeId>, log: seq<Entry>,
                  from: NodeId)
    requires Plain(s, me, peers, term, vote, log, PreCandidate) && s.votes == {me} && from in peers
    ensures var (ready, r) := TakeReady(Step(s, from, RequestVoteResp(term, true, true)));
            && Plain(r, me, peers, term + 1, Some(me), log, Candidate) && r.votes == {me}
               && r.commitIndex == s.commitIndex
            && Addressed(from, RequestVote(term + 1, me, |log|, EndTerm(log), false)) in ready.messages
  {
    hide Batch, SendAll;
    var a := s.(votes := s.votes + {from});
    assert a.votes == {me, from} && |a.votes| == 2;
    var b := Campaigning(a);
    var msg := RequestVote(term + 1, me, |log|, EndTerm(log), false);
    SendAllReaches(b, peers, msg, from);
    assert |b.votes| == 1;
    assert Step(s, from, RequestVoteResp(term, true, true)) == StartElection(a) == SendAll(b, peers, msg);
  }

  /** A member grants its vote in the next term to an up-to-date log. */
  lemma Grants(s: State, me: NodeId, peers: seq<NodeId>, term: nat, vote: Option<NodeId>, log: seq<Entry>,
               from: NodeId, req: Message)
    requires Plain(s, me, peers, term, vote, log, Follower) && from in peers
    requires req.RequestVote? && !req.preVote && req.term == term + 1 && req.candidateId == from
    requires LogOk(s, req.lastLogIndex, req.lastLogTerm)
    ensures var (ready, r) := TakeReady(Step(s, from, req));
            && Plain(r, me, peers, term + 1, Some(from), log, Follower) && r.leaderId.None?
               && r.commitIndex == s.commitIndex
            && ready.persist.Some? && Addressed(from, RequestVoteResp(term + 1, true, false)) in ready.messages
  {
    hide Batch;
    var a := BecomeFollower(s, term + 1, None);
    assert LogOk(a, req.lastLogIndex, req.lastLogTerm);
    hide LogOk;
    var b := ResetTimer(a.(votedFor := Some(from), dirty := true));
    var q := Send(b, from, RequestVoteResp(term + 1, true, false));
    assert Step(s, from, req) == q;
    assert q.out[0] == Addressed(from, RequestVoteResp(term + 1, true, false));
  }

  /** A leader, with what it has recorded of its peers. */
  ghost predicate Leads(s: State, me: NodeId, peers: seq<NodeId>, term: nat, log: seq<Entry>) {
    && Plain(s, me, peers, term, Some(me), log, Leader) && Uncompacted(s)
    && (forall p :: p in peers ==> p in s.nextIndex && p in s.matchIndex)
  }

  /** Two votes make a leader, which sends its first entry. */
  lemma Wins(s: State, me: NodeId, peers: seq<NodeId>, term: nat, log: seq<Entry>, from: NodeId)
    requires Plain(s, me, peers, term, Some(me), log, Candidate) && s.votes == {me} && from in peers
    ensures var (ready, r) := TakeReady(Step(s, from, RequestVoteResp(term, true, false)));
            var noop := Entry(term, |log| + 1, None);
            && Leads(r, me, peers, term, log + [noop]) && r.ackedSinceCheck == {} && r.commitIndex == s.commitIndex
            && (forall p :: p in peers ==> r.nextIndex[p] == |log| + 1 && r.matchIndex[p] == 0)
            && Addressed(from, AppendEntries(term, me, |log|, EndTerm(log), [noop], s.commitIndex)) in ready.messages
  {
    hide Batch, SendAppends, AllAt;
    var a := s.(votes := s.votes + {from});
    assert a.votes == {me, from} && |a.votes| == 2;
    var b := ResetTimer(TakeOffice(a));
    var noop := Entry(term, |log| + 1, None);
    assert Step(s, from, RequestVoteResp(term, true, false)) == SendAppends(b, peers);
    BroadcastReaches(b, peers, from);
    LastOnly(b, from, log, noop);
  }

  lemma LastOnly(b: State, p: NodeId, log: seq<Entry>, noop: Entry)
    requires b.log == log + [noop] && b.baseIndex == 0 && b.baseTerm == 0 && p in b.nextIndex
             && b.nextIndex[p] == |log| + 1
    ensures AppendTo(b, p) == AppendEntries(b.currentTerm, b.id, |log|, EndTerm(log), [noop], b.commitIndex)
  {
    assert EntriesFrom(b, |log| + 1) == [noop];
    assert TermAt(b, |log|) == EndTerm(log);
  }

  /** A tick of a leader that is still patient: at most a heartbeat. */
  lemma Persists(s: State, me: NodeId, peers: seq<NodeId>, term: nat, log: seq<Entry>)
    requires Leads(s, me, peers, term, log) && !Due(s)
    ensures var r := TakeReady(Tick(s)).1;
            && Leads(r, me, peers, term, log) && r.commitIndex == s.commitIndex
            && r.ackedSinceCheck == s.ackedSinceCheck
            && r.electionTimeout == s.electionTimeout && r.electionElapsed == s.electionElapsed + 1
  {
    hide Batch, Heartbeat;
    L.HeartbeatFrame(s);
  }

  /** A member that is alone elects itself. */
  lemma ElectsItself(s: State, me: NodeId, term: nat, vote: Option<NodeId>, log: seq<Entry>)
    requires Plain(s, me, [], term, vote, log, Follower) && Due(s)
    ensures var (ready, r) := TakeReady(Tick(s));
            && Leads(r, me, [], term + 1, log + [Entry(term + 1, |log| + 1, None)]) && r.commitIndex == s.commitIndex
            && ready.persist.Some?
  {
    hide Batch, BecomeLeader;
    var a := ResetTimer(s.(electionElapsed := s.electionElapsed + 1)).(role := PreCandidate, votes := {me});
    assert |a.votes| == 1;
    assert Tick(s) == StartElection(a);
    var b := Campaigning(a);
    assert |b.votes| == 1;
    assert StartElection(a) == BecomeLeader(b);
    LeadsAlone(b, me, term + 1, log);
  }

  lemma LeadsAlone(s: State, me: NodeId, term: nat, log: seq<Entry>)
    requires s.id == me && s.peers == [] && s.currentTerm == term && s.votedFor == Some(me) && s.log == log
    requires s.baseIndex == 0 && s.baseTerm == 0 && s.snapshot == None && !s.pendingRestore && s.out == []
    requires s.lastApplied == s.commitIndex
    ensures var q := BecomeLeader(s);
            && q.dirty && q.commitIndex == s.commitIndex
            && Leads(TakeReady(q).1, me, [], term, log + [Entry(term, |log| + 1, None)])
  {
    hide Batch, AllAt;
    assert BecomeLeader(s) == ResetTimer(TakeOffice(s));
  }

  /** A leader that is alone commits a proposal at once. */
  lemma CommitsAlone(s: State, me: NodeId, term: nat, log: seq<Entry>, command: Command)
    requires Leads(s, me, [], term, log) && s.commitIndex == 0
    ensures var (ready, r) := TakeReady(Propose(s, command));
            && Leads(r, me, [], term, log + [Entry(term, |log| + 1, Some(command))]) && r.commitIndex == |log| + 1
            && ready.persist.Some?
  {
    hide Batch;
    var a := s.(log := s.log + [Entry(term, |log| + 1, Some(command))], dirty := true);
    assert Committable(a, LastIndex(a));
    assert Propose(s, command) == FollowCommit(a, LastIndex(a));
  }

  /** A leader nobody has answered steps down when its patience ends. */
  lemma GivesUp(s: State, me: NodeId, peers: seq<NodeId>, term: nat, log: seq<Entry>)
    requires Leads(s, me, peers, term, log) && peers != [] && s.ackedSinceCheck == {} && Due(s)
    ensures var r := TakeReady(Tick(s)).1;
            Plain(r, me, peers, term, Some(me), log, Follower) && r.commitIndex == s.commitIndex
  {
    hide Batch, SendAppends, BroadcastAppend, Heartbeat;
    L.HeartbeatFrame(s);
    var a := Heartbeat(s);
    assert |a.ackedSinceCheck| == 0;
  }

  // ---- replication ------------------------------------------------------

  /** A follower without the entry before an append refuses it, hinting at the end of its log. */
  lemma Refuses(s: State, me: NodeId, peers: seq<NodeId>, term: nat, vote: Option<NodeId>, from: NodeId, req: Message)
    requires Plain(s, me, peers, term, vote, [], Follower) && from in peers
    requires req.AppendEntries? && req.leaderId == from && req.term == term && req.prevLogIndex > 0
             && EntriesAreContiguous(req)
    ensures var (ready, r) := TakeReady(Step(s, from, req));
            && Plain(r, me, peers, term, vote, [], Follower) && r.commitIndex == s.commitIndex
            && Addressed(from, AppendEntriesResp(term, false, 0)) in ready.messages
  {
    hide Batch, EntriesAreContiguous, Splice;
    var a := BecomeFollower(s, term, Some(from));
    var q := Send(a, from, AppendEntriesResp(term, false, 0));
    assert Step(s, from, req) == q;
    assert q.out[0] == Addressed(from, AppendEntriesResp(term, false, 0));
  }

  /** A hint at 0 sends the leader back to the start, from wherever it was. */
  lemma GoesBack(s: State, me: NodeId, peers: seq<NodeId>, term: nat, log: seq<Entry>, from: NodeId)
    requires Leads(s, me, peers, term, log) && from in peers && s.nextIndex[from] >= 2 && log != []
    ensures var (ready, r) := TakeReady(Step(s, from, AppendEntriesResp(term, false, 0)));
            && Leads(r, me, peers, term, log) && r.nextIndex[from] == 1 && r.matchIndex == s.matchIndex
            && r.commitIndex == s.commitIndex
            && Addressed(from, AppendEntries(term, me, 0, 0, log, s.commitIndex)) in ready.messages
  {
    hide Batch, SendAppend;
    var a := s.(ackedSinceCheck := s.ackedSinceCheck + {from}, nextIndex := s.nextIndex[from := 1]);
    assert Step(s, from, AppendEntriesResp(term, false, 0)) == SendAppend(a, from);
    SendAppendIs(a, from);
    FromStart(a, from, log);
    assert SendAppend(a, from).out[0] == Addressed(from, AppendTo(a, from));
  }

  lemma FromStart(a: State, p: NodeId, log: seq<Entry>)
    requires a.log == log && log != [] && a.baseIndex == 0 && a.baseTerm == 0 && p in a.nextIndex && a.nextIndex[p] == 1
    ensures AppendTo(a, p) == AppendEntries(a.currentTerm, a.id, 0, 0, log, a.commitIndex)
  {
    assert log[0..] == log;
  }

  /** A follower with an empty log takes over a whole log, to be saved before it answers. */
  lemma TakesAll(s: State, me: NodeId, peers: seq<NodeId>, term: nat, vote: Option<NodeId>, log: seq<Entry>,
                 from: NodeId)
    requires Plain(s, me, peers, term, vote, [], Follower) && from in peers && s.commitIndex == 0 && log != []
    requires EntriesAreContiguous(AppendEntries(term, from, 0, 0, log, 0))
    ensures var (ready, r) := TakeReady(Step(s, from, AppendEntries(term, from, 0, 0, log, 0)));
            && Plain(r, me, peers, term, vote, log, Follower) && r.commitIndex == 0
            && ready.persist.Some? && Addressed(from, AppendEntriesResp(term, true, |log|)) in ready.messages
  {
    hide Batch, Splice;
    var req := AppendEntries(term, from, 0, 0, log, 0);
    var a := BecomeFollower(s, term, Some(from));
    SpliceAppends(a, log, 0);
    assert a.log + log == log;
    hide EntriesAreContiguous;
    assert Step(s, from, req) == AcceptAppend(a, from, req);
    assert AcceptAppend(a, from, req).out[0] == Addressed(from, AppendEntriesResp(term, true, |log|));
  }

  /** The same append once more changes nothing, and is answered at once. */
  lemma TakesAgain(s: State, me: NodeId, peers: seq<NodeId>, term: nat, vote: Option<NodeId>, log: seq<Entry>,
                   from: NodeId)
    requires Plain(s, me, peers, term, vote, log, Follower) && from in peers && s.commitIndex == 0
    requires EntriesAreContiguous(AppendEntries(term, from, 0, 0, log, 0))
    ensures var (ready, r) := TakeReady(Step(s, from, AppendEntries(term, from, 0, 0, log, 0)));
            && Plain(r, me, peers, term, vote, log, Follower) && r.commitIndex == 0
            && ready.persist.None? && Addressed(from, AppendEntriesResp(term, true, |log|)) in ready.messages
  {
    hide Batch, Splice;
    var req := AppendEntries(term, from, 0, 0, log, 0);
    var a := BecomeFollower(s, term, Some(from));
    assert log[0..] == log;
    SpliceHeld(a, 0);
    hide EntriesAreContiguous;
    assert Step(s, from, req) == AcceptAppend(a, from, req);
    assert AcceptAppend(a, from, req).out[0] == Addressed(from, AppendEntriesResp(term, true, |log|));
  }

  lemma {:induction false} SpliceHeld(s: State, k: nat)
    requires s.baseIndex == 0 && k <= |s.log| && forall i :: 0 <= i < |s.log| ==> s.log[i].index == i + 1
    ensures Splice(s, s.log[k..], k) == Spliced(s, |s.log|, true)
    decreases |s.log| - k
  {
    if k < |s.log| {
      var rest := s.log[k..];
      assert rest[0] == s.log[k] && rest[1..] == s.log[k + 1..];
      SpliceHeld(s, k + 1);
    }
  }

  /** A peer holds everything: the leader commits its log and says so. */
  lemma CommitsAll(s: State, me: NodeId, peers: seq<NodeId>, term: nat, log: seq<Entry>, from: NodeId)
    requires Leads(s, me, peers, term, log) && from in peers && s.matchIndex[from] == 0
    requires s.commitIndex == 0 && log != [] && EndTerm(log) == term
    ensures var (ready, r) := TakeReady(Step(s, from, AppendEntriesResp(term, true, |log|)));
            && Leads(r, me, peers, term, log) && r.nextIndex[from] == |log| + 1 && r.commitIndex == |log|
            && Addressed(from, AppendEntries(term, me, |log|, term, [], |log|)) in ready.messages
  {
    hide Batch, SendAppends;
    var a := s.(ackedSinceCheck := s.ackedSinceCheck + {from},
                matchIndex := s.matchIndex[from := |log|], nextIndex := s.nextIndex[from := |log| + 1]);
    LastIsCommittable(a, from);
    var b := a.(commitIndex := |log|, dirty := true);
    CommitsTo(s, from, term, |log|, a, b);
    hide Step;
    BroadcastReaches(b, peers, from);
    NothingToSend(b, from, log);
  }

  lemma CommitsTo(s: State, from: NodeId, term: nat, k: nat, a: State, b: State)
    requires s.role == Leader && s.currentTerm == term && from in s.peers
    requires Get(s.matchIndex, from, 0) <= k == LastIndex(s)
    requires a == s.(ackedSinceCheck := s.ackedSinceCheck + {from},
                     matchIndex := s.matchIndex[from := k], nextIndex := s.nextIndex[from := k + 1])
    requires HighestCommittable(a, LastIndex(a)) == k > s.commitIndex && b == a.(commitIndex := k, dirty := true)
    ensures Step(s, from, AppendEntriesResp(term, true, k)) == SendAppends(b, s.peers)
  {
    hide Step, RecordMatch, SendAppends, HighestCommittable;
    var acked := s.(ackedSinceCheck := s.ackedSinceCheck + {from});
    Records(s, from, k);
    Advances(acked, from, k, a, b);
  }

  lemma Records(s: State, from: NodeId, k: nat)
    requires s.role == Leader && from in s.peers && k == LastIndex(s)
    ensures Step(s, from, AppendEntriesResp(s.currentTerm, true, k))
         == RecordMatch(s.(ackedSinceCheck := s.ackedSinceCheck + {from}), from, k)
  {
    hide RecordMatch, HandleRequestVote, HandleVoteResp, HandleAppend, HandleInstallSnapshot, HandleInstallSnapshotResp,
         BecomeFollower, Rewind;
  }

  lemma Advances(s: State, from: NodeId, k: nat, a: State, b: State)
    requires Get(s.matchIndex, from, 0) <= k
    requires a == s.(matchIndex := s.matchIndex[from := k], nextIndex := s.nextIndex[from := k + 1])
    requires HighestCommittable(a, LastIndex(a)) == k > s.commitIndex && b == a.(commitIndex := k, dirty := true)
    ensures RecordMatch(s, from, k) == SendAppends(b, s.peers)
  {
    hide SendAppends, HighestCommittable;
  }

  lemma NothingToSend(b: State, p: NodeId, log: seq<Entry>)
    requires b.log == log && log != [] && b.baseIndex == 0 && p in b.nextIndex && b.nextIndex[p] == |log| + 1
    ensures AppendTo(b, p) == AppendEntries(b.currentTerm, b.id, |log|, EndTerm(log), [], b.commitIndex)
  {
  }

  lemma LastIsCommittable(a: State, from: NodeId)
    requires from in a.peers && |a.peers| <= 2 && a.baseIndex == 0 && a.commitIndex == 0 && a.log != []
    requires a.log[|a.log| - 1].term == a.currentTerm && from in a.matchIndex && a.matchIndex[from] == |a.log|
    ensures HighestCommittable(a, LastIndex(a)) == |a.log|
  {
    SomeMatch(a.peers, a.matchIndex, |a.log|, from);
    assert Committable(a, |a.log|);
  }

  lemma {:induction false} SomeMatch(ps: seq<NodeId>, matched: map<NodeId, nat>, i: nat, p: NodeId)
    requires p in ps && p in matched && matched[p] >= i
    ensures Matching(ps, matched, i) >= 1
  {
    var k := |ps| - 1;
    if p != ps[k] {
      assert p in ps[..k];
      SomeMatch(ps[..k], matched, i, p);
    }
  }

  /** The follower learns that all of its log is committed. */
  lemma LearnsCommit(s: State, me: NodeId, peers: seq<NodeId>, term: nat, vote: Option<NodeId>, log: seq<Entry>,
                     from: NodeId)
    requires Plain(s, me, peers, term, vote, log, Follower) && from in peers
    requires s.commitIndex == 0 && log != [] && EndTerm(log) == term > 0
    ensures var r := TakeReady(Step(s, from, AppendEntries(term, from, |log|, term, [], |log|))).1;
            Plain(r, me, peers, term, vote, log, Follower) && r.commitIndex == |log|
  {
    hide Batch, Splice;
    var req := AppendEntries(term, from, |log|, term, [], |log|);
    var a := BecomeFollower(s, term, Some(from));
    assert Splice(a, [], |log|) == Spliced(a, |log|, true) by { EmptySplice(a, |log|); }
    assert EntriesAreContiguous(req);
    hide EntriesAreContiguous;
    assert TermAt(a, |log|) == term;
    assert Step(s, from, req) == AcceptAppend(a, from, req);
  }

  lemma EmptySplice(a: State, prev: nat)
    ensures Splice(a, [], prev) == Spliced(a, prev, true)
  {
  }

  /** A leader whose peers are not known to hold anything appends a command. */
  lemma Grows(s: State, me: NodeId, peers: seq<NodeId>, term: nat, log: seq<Entry>, command: Command)
    requires Leads(s, me, peers, term, log) && peers != [] && s.commitIndex == 0
    requires forall x :: x in peers ==> s.matchIndex[x] == 0
    ensures var r := TakeReady(Propose(s, command)).1;
            && Leads(r, me, peers, term, log + [Entry(term, |log| + 1, Some(command))]) && r.commitIndex == 0
            && r.nextIndex == s.nextIndex && r.matchIndex == s.matchIndex
  {
    hide Batch, SendAppends, HighestCommittable;
    var a := s.(log := s.log + [Entry(term, |log| + 1, Some(command))], dirty := true);
    NoneCommittable(a, LastIndex(a));
    assert Propose(s, command) == SendAppends(a, peers);
  }

  /** If a peer is to get the log from the start, it is sent all of it. */
  lemma Appends(s: State, me: NodeId, peers: seq<NodeId>, term: nat, log: seq<Entry>, command: Command, p: NodeId)
    requires Leads(s, me, peers, term, log) && p in peers && s.nextIndex[p] == 1 && s.commitIndex == 0
    requires forall x :: x in peers ==> s.matchIndex[x] == 0
    ensures var ready := TakeReady(Propose(s, command)).0;
            && ready.persist.Some?
            && Addressed(p, AppendEntries(term, me, 0, 0, log + [Entry(term, |log| + 1, Some(command))], 0))
               in ready.messages
  {
    hide Batch, SendAppends, HighestCommittable;
    var e := Entry(term, |log| + 1, Some(command));
    var a := s.(log := s.log + [e], dirty := true);
    NoneCommittable(a, LastIndex(a));
    assert Propose(s, command) == SendAppends(a, peers);
    BroadcastReaches(a, peers, p);
    FromStart(a, p, log + [e]);
  }

  lemma {:induction false} NoneCommittable(a: State, n: nat)
    requires a.commitIndex == 0 && |a.peers| >= 1
    requires forall x :: x in a.peers ==> x in a.matchIndex && a.matchIndex[x] == 0
    ensures HighestCommittable(a, n) == 0
  {
    if n > 0 {
      NoMatch(a.peers, a.matchIndex, n);
      NoneCommittable(a, n - 1);
    }
  }

  lemma {:induction false} NoMatch(ps: seq<NodeId>, matched: map<NodeId, nat>, i: nat)
    requires i > 0 && forall x :: x in ps ==> x in matched && matched[x] == 0
    ensures Matching(ps, matched, i) == 0
  {
    if ps != [] {
      assert forall x :: x in ps[..|ps| - 1] ==> x in ps;
      NoMatch(ps[..|ps| - 1], matched, i);
    }
  }
}
