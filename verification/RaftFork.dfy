/**
 * A member ahead of what the group has seen of it. Calls whose effects are not on
 * disk yet take the member along a branch of the history that nobody else knows of
 * and that a crash may cut off. What it believes committed on that branch is
 * committed in the history itself.
 */
module RaftFork {
  import opened Model
  import opened RaftSpec
  import opened RaftNode
  import opened RaftElections
  import opened RaftCommit
  import opened RaftCourse
  import C = RaftCluster
  import L = RaftLocal
  import P = Protocol
  import PS = ProtocolSteps
  import S = RaftSafety

  predicate IsCall(n: NodeId, e: C.Event) {
    e == C.Ticks(n) || (e.Receives? && e.packet.to == n) || (e.Proposes? && e.n == n)
  }

  /** The member after one call, with its effects saved and applied. */
  ghost function PlayOne(m: C.Member, e: C.Event): C.Member {
    var (ready, r) := TakeReady(C.Called(m.raft, e));
    C.Member(r, if ready.persist.Some? then ready.persist.value else m.disk, Deliver(m.sm, ready))
  }

  ghost function Play(m: C.Member, calls: seq<C.Event>): C.Member {
    if calls == [] then m else PlayOne(Play(m, calls[..|calls| - 1]), calls[|calls| - 1])
  }

  /** What `e` delivers is true in history `g`. */
  ghost predicate Truthful(boot: Replicated, g: P.Global, n: NodeId, e: C.Event)
    requires P.WellFormed(g)
  {
    IsCall(n, e) && (e.Receives? ==> MsgOk(boot, g, e.packet.from, n, e.packet.msg))
  }

  // ---- one call ---------------------------------------------------------

  lemma PlayOneOk(boot: Replicated, g: P.Global, n: NodeId, m: C.Member, e: C.Event) returns (h: P.Global)
    requires P.Inv(g) && C.MemberOk(boot, g, n, m) && Truthful(boot, g, n, e)
    ensures Moved(boot, g, h, n, C.Called(m.raft, e), m.sm) && C.MemberOk(boot, h, n, PlayOne(m, e))
  {
    hide P.Inv, NodeOk, MsgOk, C.Called, P.StepBy;
    h := C.CalledOk(boot, g, n, m.raft, m.sm, e);
    TakeReadyOk(boot, h, n, C.Called(m.raft, e), m.sm);
    C.SavedOk(m, e);
  }

  /** A leader whose election the history knows has itself acknowledged all the history knows of its log. */
  ghost predicate OwnAcked(g: P.Global, n: NodeId, s: State)
    requires P.WellFormed(g)
  {
    var t := s.currentTerm;
    s.role == Leader && t in g.leaderOf ==> P.Acked(g, n, t, |g.leaderLog[t]|)
  }

  lemma OwnAckedStays(boot: Replicated, g: P.Global, h: P.Global, k: P.Global, n: NodeId, s: State, e: C.Event,
                      q: State, sm: Replicated)
    requires P.WellFormed(g) && P.StepBy(g, h, n) && P.StepBy(g, k, n) && P.VotesOk(h)
    requires NodeOk(boot, h, n, s, sm) && NodeOk(boot, k, n, q, sm) && TakesOffice(s, q) && OwnAcked(g, n, s)
    ensures OwnAcked(g, n, q)
  {
    var t := q.currentTerm;
    if q.role == Leader && t in g.leaderOf {
      assert g.leaderOf[t] == k.leaderOf[t] == n;
      assert (t, n) in h.candLog && t <= h.core[n].term;
      assert s.currentTerm == t && s.role != Candidate;
    }
  }

  // ---- where a commit index comes from ----------------------------------

  /** The history commits the first `c` entries of `log`; so it does of the log a later branch has there. */
  lemma SamePrefix(g: P.Global, k: P.Global, a: seq<Entry>, x: nat, b: seq<Entry>, c: nat, y: nat)
    requires P.WellFormed(g) && P.WellFormed(k) && C.Later(g, k) && P.LeadersOk(k) && P.Complete(k)
    requires P.Committed(g, a, c, x) && P.Committed(k, b, c, y) && x <= y
    ensures P.Committed(g, b, c, y)
  {
    hide P.LeadersOk, P.Complete, C.Later, P.Committed;
    S.LaterCommitted(g, k, a, c, x);
    CommittedWithin(g, a, c, x);
    CommittedWithin(k, b, c, y);
    P.CommittedAgree(k, a, c, x, b, c, y);
    PS.SameCommit(g, a, b, c, x);
    HigherBound(g, b, c, x, y);
  }

  lemma HigherBound(g: P.Global, a: seq<Entry>, c: nat, x: nat, y: nat)
    requires P.WellFormed(g) && P.Committed(g, a, c, x) && x <= y
    ensures P.Committed(g, a, c, y)
  {
    if c > 0 {
      var t, i :| P.CommitWitness(g, a, c, x, t, i);
      assert P.CommitWitness(g, a, c, y, t, i);
    }
  }

  lemma CommittedWithin(g: P.Global, a: seq<Entry>, c: nat, x: nat)
    requires P.WellFormed(g) && P.Committed(g, a, c, x)
    ensures c <= |a|
  {
  }

  lemma VouchedCommitted(boot: Replicated, g: P.Global, from: NodeId, n: NodeId, msg: Message, c: nat)
    requires P.WellFormed(g) && MsgOk(boot, g, from, n, msg) && (msg.AppendEntries? || msg.InstallSnapshot?)
    requires c <= Vouched(msg)
    ensures msg.term in g.leaderLog && P.Committed(g, g.leaderLog[msg.term], c, msg.term)
  {
    CommittedBelow(g, g.leaderLog[msg.term], Vouched(msg), c, msg.term);
  }

  /** Somebody else is among the quorum that matches, in a group of two or more. */
  lemma SomePeer(g: P.Global, n: NodeId, s: State, i: nat) returns (p: NodeId)
    requires GroupOk(g, n, s) && |g.ids| > 1 && 1 + Matching(s.peers, s.matchIndex, i) >= Quorum(s)
    ensures p in MatchSet(s.peers, s.matchIndex, i) && p != n
  {
    MatchingIsCount(s.peers, s.matchIndex, i);
    GroupSize(g, n, s);
    p :| p in MatchSet(s.peers, s.matchIndex, i);
  }

  /** What peers acknowledged on the branch they acknowledged in the history. */
  lemma PeersAcked(g: P.Global, k: P.Global, n: NodeId, p: NodeId, t: nat, i: nat)
    requires P.StepBy(g, k, n) && P.Acked(k, p, t, i) && p != n
    ensures P.Acked(g, p, t, i)
  {
    var j :| i <= j && (p, t, j) in k.acks;
    assert (p, t, j) in g.acks;
  }

  /** Everyone who counts towards a commit on the branch has acknowledged the entry in the history. */
  lemma CountedAcked(boot: Replicated, g: P.Global, k: P.Global, n: NodeId, q: State, sm: Replicated, i: nat)
    requires P.WellFormed(g) && P.AcksOk(g) && P.StepBy(g, k, n) && |g.ids| > 1
    requires NodeOk(boot, k, n, q, sm) && q.role == Leader && OwnAcked(g, n, q)
    requires 0 < i && 1 + Matching(q.peers, q.matchIndex, i) >= Quorum(q)
    ensures var t := q.currentTerm;
            && t in g.leaderOf && i <= |g.leaderLog[t]|
            && P.AckedByAll(g, MatchSet(q.peers, q.matchIndex, i) + {n}, t, i)
  {
    var t := q.currentTerm;
    var p := SomePeer(k, n, q, i);
    forall v | v in MatchSet(q.peers, q.matchIndex, i) ensures P.Acked(g, v, t, i) {
      AckedBelow(k, v, t, q.matchIndex[v], i);
      PeersAcked(g, k, n, v, t, i);
    }
    hide P.Acked, P.StepBy, NodeOk, Matching;
    AckedWithin(g, p, t, i);
    AckedBelow(g, n, t, |g.leaderLog[t]|, i);
  }

  /** An index that is committable on the branch is chosen in the history. */
  lemma CommittableBacked(boot: Replicated, g: P.Global, k: P.Global, n: NodeId, q: State, sm: Replicated, i: nat)
    requires P.WellFormed(g) && P.AcksOk(g) && P.StepBy(g, k, n) && |g.ids| > 1
    requires NodeOk(boot, k, n, q, sm) && q.role == Leader && OwnAcked(g, n, q)
    requires 0 < i && q.baseIndex <= i <= LastIndex(q) && Committable(q, i)
    ensures P.Committed(g, k.core[n].log, i, q.currentTerm)
  {
    hide P.AckedByAll, OwnAcked, P.AcksOk, P.Quorum, Matching, NodeOk, TermAt, P.StepBy;
    var t := q.currentTerm;
    LeaderAt(boot, g, k, n, q, sm, i);
    CountedAcked(boot, g, k, n, q, sm, i);
    assert g.leaderLog[t] <= k.leaderLog[t];
    assert P.Own(g, t, i);
    assert P.Chosen(g, t, i);
    assert P.CommitWitness(g, k.core[n].log, i, t, t, i);
  }

  lemma LeaderAt(boot: Replicated, g: P.Global, k: P.Global, n: NodeId, q: State, sm: Replicated, i: nat)
    requires P.StepBy(g, k, n) && NodeOk(boot, k, n, q, sm) && q.role == Leader
    requires 0 < i && q.baseIndex <= i <= LastIndex(q) && 1 + Matching(q.peers, q.matchIndex, i) >= Quorum(q)
    ensures var t := q.currentTerm;
            && P.WellFormed(k) && n in k.core && t in k.leaderLog && k.leaderLog[t] == k.core[n].log
            && i <= |k.core[n].log| && k.core[n].log[i - 1].term == TermAt(q, i)
            && P.Quorum(g.ids, MatchSet(q.peers, q.matchIndex, i) + {n})
            && (t in g.leaderLog ==> g.leaderLog[t] <= k.leaderLog[t])
  {
    CommittableQuorum(k, n, q, i);
  }

  // ---- the branch -------------------------------------------------------

  /**
   * `y` is the member `n` on a branch `h` of history `g`: the branch is `n`'s own, and
   * what `y` takes as committed is committed in `g`.
   */
  ghost predicate Forked(boot: Replicated, g: P.Global, h: P.Global, n: NodeId, y: C.Member) {
    && P.Inv(h) && P.StepBy(g, h, n) && C.MemberOk(boot, h, n, y)
    && P.Committed(g, h.core[n].log, y.raft.commitIndex, y.raft.currentTerm) && OwnAcked(g, n, y.raft)
  }

  lemma CommitBacked(boot: Replicated, g: P.Global, h: P.Global, k: P.Global, n: NodeId, s: State, e: C.Event, q: State,
                     sm: Replicated)
    requires P.Inv(g) && |g.ids| > 1 && P.Inv(k) && P.StepBy(g, k, n) && NodeOk(boot, k, n, q, sm)
    requires P.WellFormed(h) && n in h.ids && P.Committed(g, h.core[n].log, s.commitIndex, s.currentTerm)
    requires Truthful(boot, g, n, e) && Follows(s, e, q) && OwnAcked(g, n, q)
    ensures P.Committed(g, k.core[n].log, q.commitIndex, q.currentTerm)
  {
    hide P.Inv, P.StepBy, P.Committed, C.Later, P.LeadersOk, P.Complete, NodeOk, MsgOk, OwnAcked, Committable,
         LastIndex;
    Unpack(boot, k, n, q, sm);
    OwnCommitted(k, n);
    C.StepIsLater(g, k, n);
    var c, full := q.commitIndex, k.core[n].log;
    if c == s.commitIndex {
      SamePrefix(g, k, h.core[n].log, s.currentTerm, full, c, q.currentTerm);
    } else if e.Receives? && (e.packet.msg.AppendEntries? || e.packet.msg.InstallSnapshot?)
              && c <= Vouched(e.packet.msg) && e.packet.msg.term == q.currentTerm {
      VouchedCommitted(boot, g, e.packet.from, n, e.packet.msg, c);
      SamePrefix(g, k, g.leaderLog[e.packet.msg.term], e.packet.msg.term, full, c, q.currentTerm);
    } else {
      AcksOf(g);
      CommittableBacked(boot, g, k, n, q, sm, c);
    }
  }

  lemma AcksOf(g: P.Global)
    requires P.Inv(g)
    ensures P.WellFormed(g) && P.AcksOk(g) && P.VotesOk(g)
  {
  }

  /** One more call on the branch. */
  lemma ForkOne(boot: Replicated, g: P.Global, h: P.Global, n: NodeId, y: C.Member, e: C.Event) returns (k: P.Global)
    requires P.Inv(g) && |g.ids| > 1 && Forked(boot, g, h, n, y) && Truthful(boot, g, n, e)
    ensures Forked(boot, g, k, n, PlayOne(y, e))
  {
    hide P.Inv, P.StepBy, NodeOk, MsgOk, C.Called, P.Committed, OwnAcked, Follows, L.Valid;
    AcksOf(g);
    AcksOf(h);
    if e.Receives? {
      MsgOkStays(boot, g, h, n, e.packet.from, n, e.packet.msg);
    }
    k := PlayOneOk(boot, h, n, y, e);
    P.StepByTransitive(g, h, k, n);
    var q := C.Called(y.raft, e);
    CallFollows(y.raft, e);
    Unpack(boot, h, n, y.raft, y.sm);
    Unpack(boot, k, n, q, y.sm);
    TakesIt(y.raft, e, q);
    OwnAckedStays(boot, g, h, k, n, y.raft, e, q, y.sm);
    CommitBacked(boot, g, h, k, n, y.raft, e, q, y.sm);
    TakenSame(g, n, y, e);
  }

  lemma TakesIt(s: State, e: C.Event, q: State)
    requires Follows(s, e, q)
    ensures TakesOffice(s, q)
  {
  }

  lemma TakenSame(g: P.Global, n: NodeId, y: C.Member, e: C.Event)
    requires P.WellFormed(g)
    ensures var q, r := C.Called(y.raft, e), PlayOne(y, e).raft;
            && r.commitIndex == q.commitIndex && r.currentTerm == q.currentTerm
            && (OwnAcked(g, n, q) ==> OwnAcked(g, n, r))
  {
    hide C.Called;
  }

  /** A member that agrees with the history, whatever calls it has made since. */
  lemma {:induction false} Fork(boot: Replicated, g: P.Global, n: NodeId, m: C.Member, calls: seq<C.Event>)
    returns (h: P.Global)
    requires P.Inv(g) && |g.ids| > 1 && C.MemberOk(boot, g, n, m)
    requires forall e :: e in calls ==> Truthful(boot, g, n, e)
    ensures Forked(boot, g, h, n, Play(m, calls))
    decreases |calls|
  {
    hide P.Inv, C.MemberOk, Truthful, Forked, PlayOne;
    if calls == [] {
      h := g;
      Unforked(boot, g, n, m);
    } else {
      var k := |calls| - 1;
      h := Fork(boot, g, n, m, calls[..k]);
      h := ForkOne(boot, g, h, n, Play(m, calls[..k]), calls[k]);
    }
  }

  lemma Unforked(boot: Replicated, g: P.Global, n: NodeId, m: C.Member)
    requires P.Inv(g) && C.MemberOk(boot, g, n, m)
    ensures Forked(boot, g, g, n, m)
  {
    StayPut(g, n);
    Unpack(boot, g, n, m.raft, m.sm);
    OwnCommitted(g, n);
    if m.raft.role == Leader {
      LedLog(g, n, m.raft);
    }
  }
}
