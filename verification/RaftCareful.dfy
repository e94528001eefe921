/**
 * What careful overlapping drains guarantee: everything that serialised drains do.
 * In every run in which a drain that asks for no save sends only when the disk holds
 * all that is durable, committed entries are never lost and never differ, and a
 * reading of the commit index, though nothing of it may be on disk yet, is final.
 */
module RaftCareful {
  import opened Model
  import opened RaftSpec
  import opened RaftNode
  import opened RaftOverlap
  import opened RaftDelay
  import opened RaftFork
  import C = RaftCluster
  import L = RaftLocal
  import O = RaftOverlapSafety
  import P = Protocol
  import S = RaftSafety

  // ---- a moment of a run ------------------------------------------------

  /**
   * Member `n` as `m` at a moment whose history is `g`, on its own branch `h`, seen from a
   * later history `z`.
   */
  ghost predicate Branch(boot: Replicated, z: P.Global, g: P.Global, h: P.Global, n: NodeId, m: Member) {
    && P.Inv(z) && P.Inv(g) && |g.ids| > 1 && C.Later(g, z)
    && Forked(boot, g, h, n, C.Member(m.raft, Durable(m.raft), m.sm))
  }

  /** The histories of the delayed run at the moments of the overlapping one. */
  ghost predicate Witnessed(boot: Replicated, b: seq<Group>, cb: seq<C.Cluster>, hs: seq<P.Global>, at: seq<nat>,
                            pss: seq<map<NodeId, Pending>>) {
    Tracks(boot, b, cb, at, pss) && C.IsHistory(boot, cb, hs)
  }

  lemma Witness(boot: Replicated, b: seq<Group>, ev: seq<Event>)
    returns (cb: seq<C.Cluster>, hs: seq<P.Global>, at: seq<nat>, pss: seq<map<NodeId, Pending>>)
    requires CarefulRun(boot, b, ev)
    ensures Witnessed(boot, b, cb, hs, at, pss) && |at| == |b|
  {
    hide CarefulRun, Shadows, C.Run, C.IsHistory;
    var cev: seq<C.Event>;
    cb, cev, at, pss := DelayedRun(boot, b, ev);
    hs := C.Histories(boot, cb, cev);
  }

  lemma TruthfulCalls(boot: Replicated, c: C.Cluster, g: P.Global, n: NodeId, calls: seq<C.Event>)
    requires C.Agrees(boot, c, g) && Callable(c.net, n, calls)
    ensures P.WellFormed(g) && forall e :: e in calls ==> Truthful(boot, g, n, e)
  {
    hide MsgOk, C.MemberOk;
  }

  lemma BranchNow(boot: Replicated, b: Group, c: C.Cluster, g: P.Global, ps: map<NodeId, Pending>, n: NodeId)
    returns (h: P.Global)
    requires C.Agrees(boot, c, g) && Shadows(b, c, ps) && n in b.member && |b.member.Keys| > 1
    ensures Branch(boot, g, g, h, n, b.member[n])
  {
    hide C.MemberOk, C.NetOk, Kept, Forked, P.Inv, HandedOut;
    var m, x, calls := b.member[n], c.member[n], ps[n].read + ps[n].unread;
    CanFlush(b, c, ps, n);
    TruthfulCalls(boot, c, g, n, calls);
    h := Fork(boot, g, n, x, calls);
    PlayedIs(x, calls, m);
    C.LaterSelf(boot, c, g);
  }

  lemma PlayedIs(x: C.Member, calls: seq<C.Event>, m: Member)
    requires Kept(x, x) && m.raft == Play(x, calls).raft && m.sm == Play(x, calls).sm
    ensures Play(x, calls) == C.Member(m.raft, Durable(m.raft), m.sm)
  {
    PlayKeeps(x, calls);
  }

  lemma BranchAt(boot: Replicated, b: seq<Group>, cb: seq<C.Cluster>, hs: seq<P.Global>, at: seq<nat>,
                 pss: seq<map<NodeId, Pending>>, i: nat, k: nat, n: NodeId) returns (h: P.Global)
    requires Witnessed(boot, b, cb, hs, at, pss) && i <= k < |b| && n in b[i].member && |b[i].member.Keys| > 1
    ensures at[i] < |hs| && at[k] < |hs| && Branch(boot, hs[at[k]], hs[at[i]], h, n, b[i].member[n])
    ensures C.Later(hs[at[i]], hs[at[k]])
  {
    hide Shadows, C.Agrees, Branch, C.Later;
    assert Shadows(b[i], cb[at[i]], pss[i]) && at[i] <= at[k] && C.Agrees(boot, cb[at[i]], hs[at[i]])
           && C.Agrees(boot, cb[at[k]], hs[at[k]]) && C.Later(hs[at[i]], hs[at[k]]);
    h := BranchNow(boot, b[i], cb[at[i]], hs[at[i]], pss[i], n);
    S.HistoryInv(boot, cb, hs, at[k]);
    BranchLater(boot, hs[at[i]], hs[at[k]], h, n, b[i].member[n]);
  }

  lemma BranchLater(boot: Replicated, g: P.Global, z: P.Global, h: P.Global, n: NodeId, m: Member)
    requires Branch(boot, g, g, h, n, m) && P.Inv(z) && C.Later(g, z)
    ensures Branch(boot, z, g, h, n, m)
  {
  }

  /** What the branch tells about the member, and the history about its commits. */
  lemma BranchParts(boot: Replicated, z: P.Global, g: P.Global, h: P.Global, n: NodeId, m: Member)
    requires Branch(boot, z, g, h, n, m)
    ensures P.WellFormed(h) && n in h.core && Holds(m.raft, h.core[n].log)
    ensures P.WellFormed(z) && P.Committed(z, h.core[n].log, m.raft.commitIndex, m.raft.currentTerm)
    ensures m.raft.lastApplied <= m.raft.commitIndex && m.sm == Replay(boot, h.core[n].log[..m.raft.lastApplied])
  {
    S.LaterCommitted(g, z, h.core[n].log, m.raft.commitIndex, m.raft.currentTerm);
  }

  /** Two committed prefixes, of whatever members at whatever moments, agree. */
  lemma PrefixesAgree(z: P.Global, a: seq<Entry>, c: nat, x: nat, b: seq<Entry>, d: nat, y: nat, k: nat)
    requires P.Inv(z) && P.Committed(z, a, c, x) && P.Committed(z, b, d, y) && k <= c && k <= d
    ensures k <= |a| && k <= |b| && a[..k] == b[..k]
  {
    S.InvParts(z);
    hide P.Inv, P.LeadersOk, P.Complete;
    CommittedBelow(z, a, c, k, x);
    P.CommittedAgree(z, a, k, x, b, d, y);
  }

  lemma ManyMembers(boot: Replicated, b: seq<Group>, ev: seq<Event>, i: nat)
    requires CarefulRun(boot, b, ev) && i < |b| && |b[0].member.Keys| > 1
    ensures |b[i].member.Keys| > 1
  {
    O.RunOk(boot, b, ev, 0, i);
  }

  /** Any two moments, seen from the later one. */
  lemma TwoMoments(boot: Replicated, b: seq<Group>, ev: seq<Event>, i: nat, n: NodeId, j: nat, m: NodeId)
    returns (z: P.Global, g: P.Global, h: P.Global, g': P.Global, h': P.Global)
    requires CarefulRun(boot, b, ev) && |b[0].member.Keys| > 1
    requires i < |b| && j < |b| && n in b[i].member && m in b[j].member
    ensures Branch(boot, z, g, h, n, b[i].member[n]) && Branch(boot, z, g', h', m, b[j].member[m])
    ensures i <= j ==> z == g'
  {
    hide CarefulRun, Witnessed, Branch, C.Later;
    var cb, hs, at, pss := Witness(boot, b, ev);
    ManyMembers(boot, b, ev, i);
    ManyMembers(boot, b, ev, j);
    var k := Max(i, j);
    h := BranchAt(boot, b, cb, hs, at, pss, i, k, n);
    h' := BranchAt(boot, b, cb, hs, at, pss, j, k, m);
    z, g, g' := hs[at[k]], hs[at[i]], hs[at[j]];
  }

  // ---- agreement --------------------------------------------------------

  /** State machine safety: members that applied equally much hold the same state. */
  lemma StateMachineSafety(boot: Replicated, b: seq<Group>, ev: seq<Event>, i: nat, n: NodeId, j: nat, m: NodeId)
    requires CarefulRun(boot, b, ev) && |b[0].member.Keys| > 1
    requires i < |b| && j < |b| && n in b[i].member && m in b[j].member
    requires b[i].member[n].raft.lastApplied == b[j].member[m].raft.lastApplied
    ensures b[i].member[n].sm == b[j].member[m].sm
  {
    hide CarefulRun, Branch, P.Committed;
    var z, g, h, g', h' := TwoMoments(boot, b, ev, i, n, j, m);
    var x, y := b[i].member[n], b[j].member[m];
    BranchParts(boot, z, g, h, n, x);
    BranchParts(boot, z, g', h', m, y);
    BranchInv(boot, z, g, h, n, x);
    PrefixesAgree(z, h.core[n].log, x.raft.commitIndex, x.raft.currentTerm, h'.core[m].log, y.raft.commitIndex,
                  y.raft.currentTerm, x.raft.lastApplied);
  }

  lemma BranchInv(boot: Replicated, z: P.Global, g: P.Global, h: P.Global, n: NodeId, m: Member)
    requires Branch(boot, z, g, h, n, m)
    ensures P.Inv(z) && P.Inv(g) && P.Inv(h) && C.Later(g, z) && C.Later(g, h)
  {
    C.StepIsLater(g, h, n);
  }

  /** A committed index holds the same entry wherever it is live and committed, saved or not. */
  lemma CommittedEntriesAgree(boot: Replicated, b: seq<Group>, ev: seq<Event>, i: nat, n: NodeId, j: nat, m: NodeId,
                              k: nat)
    requires CarefulRun(boot, b, ev) && |b[0].member.Keys| > 1
    requires i < |b| && j < |b| && n in b[i].member && m in b[j].member
    requires var s := b[i].member[n].raft; s.baseIndex < k <= s.commitIndex
    requires var s := b[j].member[m].raft; s.baseIndex < k <= s.commitIndex
    ensures L.EntryAt(b[i].member[n].raft, k).Some?
    ensures L.EntryAt(b[i].member[n].raft, k) == L.EntryAt(b[j].member[m].raft, k)
  {
    hide CarefulRun, Branch, P.Committed, L.EntryAt;
    var z, g, h, g', h' := TwoMoments(boot, b, ev, i, n, j, m);
    var x, y := b[i].member[n], b[j].member[m];
    BranchParts(boot, z, g, h, n, x);
    BranchParts(boot, z, g', h', m, y);
    BranchInv(boot, z, g, h, n, x);
    PrefixesAgree(z, h.core[n].log, x.raft.commitIndex, x.raft.currentTerm, h'.core[m].log, y.raft.commitIndex,
                  y.raft.currentTerm, k);
    S.EntriesAgree(x.raft, h.core[n].log, y.raft, h'.core[m].log, k, k);
  }

  // ---- leaders ----------------------------------------------------------

  /** `q` is a quorum that has voted for `c` in term `u`, and `log` extends the log `c` campaigned with. */
  ghost predicate Voted(g: P.Global, u: nat, c: NodeId, q: set<NodeId>, log: seq<Entry>) {
    && P.Quorum(g.ids, q) && (forall v :: v in q ==> (v, u, c) in g.votes)
    && (u, c) in g.candLog && g.candLog[(u, c)] <= log
  }

  /** Who leads on its branch has been voted for in the history. */
  lemma LeaderVoted(boot: Replicated, z: P.Global, g: P.Global, h: P.Global, n: NodeId, m: Member)
    returns (q: set<NodeId>)
    requires Branch(boot, z, g, h, n, m) && m.raft.role == Leader
    ensures n in h.core && Voted(g, m.raft.currentTerm, n, q, h.core[n].log)
  {
    LeaderParts(boot, z, g, h, n, m);
    hide Branch;
    q := h.electors[m.raft.currentTerm];
    VotersKnown(g, h, n, m.raft.currentTerm);
  }

  lemma LeaderParts(boot: Replicated, z: P.Global, g: P.Global, h: P.Global, n: NodeId, m: Member)
    requires Branch(boot, z, g, h, n, m) && m.raft.role == Leader
    ensures var t := m.raft.currentTerm;
            && n in h.core && P.WellFormed(h) && t in h.leaderOf && h.leaderOf[t] == n
            && h.leaderLog[t] == h.core[n].log
            && P.Inv(h) && P.Inv(g) && P.StepBy(g, h, n) && |g.ids| > 1
  {
    hide P.Inv, P.StepBy, P.Committed;
    LedLog(h, n, m.raft);
  }

  lemma VotersKnown(g: P.Global, h: P.Global, n: NodeId, t: nat)
    requires P.Inv(g) && P.Inv(h) && P.StepBy(g, h, n) && |g.ids| > 1 && t in h.leaderOf && h.leaderOf[t] == n
    ensures Voted(g, t, n, h.electors[t], h.leaderLog[t])
  {
    var q := h.electors[t];
    assert forall v :: v in q ==> (v, t, n) in h.votes;
    var v := Other(g.ids, q, n);
    assert (v, t, n) in g.votes && (t, n) in g.candLog && (n, t, n) in g.votes;
    assert P.Init(h, t) == g.candLog[(t, n)];
  }

  /** A quorum of two or more has somebody else in it. */
  lemma Other(ids: set<NodeId>, q: set<NodeId>, n: NodeId) returns (v: NodeId)
    requires P.Quorum(ids, q) && |ids| > 1
    ensures v in q && v != n
  {
    if q <= {n} {
      SubsetSize(q, {n});
    }
    v :| v in q && v != n;
  }

  lemma VotedStays(g: P.Global, z: P.Global, u: nat, c: NodeId, q: set<NodeId>, log: seq<Entry>)
    requires Voted(g, u, c, q, log) && C.Later(g, z)
    ensures Voted(z, u, c, q, log)
  {
  }

  /** What is committed in an earlier term is in the log of whoever a quorum has voted for. */
  lemma VotedHolds(z: P.Global, a: seq<Entry>, c: nat, x: nat, u: nat, n: NodeId, q: set<NodeId>, log: seq<Entry>)
    requires P.Inv(z) && P.Committed(z, a, c, x) && x < u && Voted(z, u, n, q, log)
    ensures c <= |a| && a[..c] <= log
  {
    hide P.VotesOk, P.VotedFor, P.LeadersOk, P.Complete, P.LogsOk, P.AcksOk, P.Kept, P.CommitsOk, P.Chosen;
    if c > 0 {
      var t, i :| P.CommitWitness(z, a, c, x, t, i);
      P.VotedComplete(z, t, i, u, n, q);
      ChosenOwn(z, t, i);
      P.PrefixCut(z.leaderLog[t], z.candLog[(u, n)], i, c);
    }
  }

  lemma ChosenOwn(z: P.Global, t: nat, i: nat)
    requires P.WellFormed(z) && P.Chosen(z, t, i)
    ensures t in z.leaderOf && i <= |z.leaderLog[t]|
  {
  }

  /**
   * Whatever is committed up to term `x` is in the log of a leader of a later term, and of
   * one of that term that leads now.
   */
  lemma LeaderHolds(boot: Replicated, z: P.Global, a: seq<Entry>, c: nat, x: nat, g: P.Global, h: P.Global, m: NodeId,
                    y: Member)
    requires Branch(boot, z, g, h, m, y) && y.raft.role == Leader && P.WellFormed(z) && P.Committed(z, a, c, x)
    requires x < y.raft.currentTerm || (x == y.raft.currentTerm && z == g)
    ensures c <= |a| && m in h.core && a[..c] <= h.core[m].log
  {
    hide Branch, P.Inv, P.Committed, Voted, C.Later, P.StepBy;
    CommittedWithin(z, a, c, x);
    BranchInv(boot, z, g, h, m, y);
    LeaderParts(boot, z, g, h, m, y);
    var u := y.raft.currentTerm;
    if x < u {
      var q := LeaderVoted(boot, z, g, h, m, y);
      VotedStays(g, z, u, m, q, h.core[m].log);
      VotedHolds(z, a, c, x, u, m, q, h.core[m].log);
    } else {
      S.LaterCommitted(g, h, a, c, x);
      LaterItself(h);
      S.LeaderLogHolds(h, h, a, c, x, u);
    }
  }

  lemma LaterItself(h: P.Global)
    requires P.WellFormed(h)
    ensures C.Later(h, h)
  {
  }

  /**
   * Leader completeness: an entry committed at `n`, saved or not, is in the log, or under
   * the snapshot base, of every leader of a later term, and of every later leader of the
   * same term.
   */
  lemma LeaderCompleteness(boot: Replicated, b: seq<Group>, ev: seq<Event>, i: nat, n: NodeId, j: nat, m: NodeId,
                           k: nat)
    requires CarefulRun(boot, b, ev) && |b[0].member.Keys| > 1
    requires i < |b| && j < |b| && n in b[i].member && m in b[j].member
    requires var s := b[i].member[n].raft; s.baseIndex < k <= s.commitIndex
    requires b[j].member[m].raft.role == Leader
    requires var t, u := b[i].member[n].raft.currentTerm, b[j].member[m].raft.currentTerm; t < u || (t == u && i <= j)
    ensures k <= LastIndex(b[j].member[m].raft)
    ensures b[j].member[m].raft.baseIndex < k ==>
              L.EntryAt(b[j].member[m].raft, k) == L.EntryAt(b[i].member[n].raft, k)
  {
    hide CarefulRun, Branch, P.Committed, L.EntryAt;
    var z, g, h, g', h' := TwoMoments(boot, b, ev, i, n, j, m);
    var x, y := b[i].member[n], b[j].member[m];
    BranchParts(boot, z, g, h, n, x);
    BranchParts(boot, z, g', h', m, y);
    var c := x.raft.commitIndex;
    LeaderHolds(boot, z, h.core[n].log, c, x.raft.currentTerm, g', h', m, y);
    if y.raft.baseIndex < k {
      assert h'.core[m].log[..c] == h.core[n].log[..c];
      S.EntriesAgree(x.raft, h.core[n].log, y.raft, h'.core[m].log, k, c);
    }
  }
}
