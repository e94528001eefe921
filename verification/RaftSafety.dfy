/**
 * Safety of every run of the group, for any number of members, any loss,
 * repetition and reordering of messages, proposals, compactions, snapshot
 * installs and restarts. Statements about two moments of a run hold in either
 * order unless they say otherwise.
 */
module RaftSafety {
  import opened Model
  import opened RaftSpec
  import opened RaftNode
  import opened RaftCommit
  import opened RaftCluster
  import D = RaftDriver
  import L = RaftLocal
  import P = Protocol

  // ---- moving facts to a later history ----------------------------------

  lemma LaterChosen(g: P.Global, h: P.Global, t: nat, i: nat)
    requires Later(g, h) && P.Chosen(g, t, i)
    ensures P.Chosen(h, t, i)
  {
    var q :| P.Quorum(g.ids, q) && P.AckedByAll(g, q, t, i);
    forall m | m in q ensures P.Acked(h, m, t, i) {
      assert P.Acked(g, m, t, i);
      var j :| i <= j && (m, t, j) in g.acks;
      assert (m, t, j) in h.acks;
    }
    assert P.AckedByAll(h, q, t, i);
  }

  lemma LaterCommitted(g: P.Global, h: P.Global, log: seq<Entry>, c: nat, x: nat)
    requires Later(g, h) && P.Committed(g, log, c, x)
    ensures P.Committed(h, log, c, x)
  {
    if c > 0 {
      var t, i :| P.CommitWitness(g, log, c, x, t, i);
      LaterChosen(g, h, t, i);
      assert g.leaderLog[t] <= h.leaderLog[t];
      assert P.CommitWitness(h, log, c, x, t, i);
    }
  }

  /** The member `n` at one moment, as the history sees it. */
  ghost predicate At(boot: Replicated, h: P.Global, n: NodeId, m: Member, g: P.Global) {
    && MemberOk(boot, g, n, m) && Later(g, h) && P.Inv(h)
    && P.Committed(h, g.core[n].log, m.raft.commitIndex, m.raft.currentTerm)
  }

  lemma MomentAt(boot: Replicated, b: seq<Cluster>, hs: seq<P.Global>, i: nat, k: nat, n: NodeId)
    requires IsHistory(boot, b, hs) && i <= k < |b| && n in b[i].member
    ensures At(boot, hs[k], n, b[i].member[n], hs[i])
  {
    assert Agrees(boot, b[i], hs[i]) && Agrees(boot, b[k], hs[k]) && Later(hs[i], hs[k]);
    CommittedNow(boot, b[i], hs[i], n);
    LaterCommitted(hs[i], hs[k], hs[i].core[n].log, b[i].member[n].raft.commitIndex, b[i].member[n].raft.currentTerm);
  }

  lemma CommittedNow(boot: Replicated, c: Cluster, g: P.Global, n: NodeId)
    requires Agrees(boot, c, g) && n in c.member
    ensures MemberOk(boot, g, n, c.member[n])
    ensures P.Committed(g, g.core[n].log, c.member[n].raft.commitIndex, c.member[n].raft.currentTerm)
  {
  }

  lemma InvParts(h: P.Global)
    requires P.Inv(h)
    ensures P.WellFormed(h) && P.LogsOk(h) && P.LeadersOk(h) && P.Complete(h)
  {
  }

  /** Two committed prefixes, of whatever members at whatever moments, agree. */
  lemma PrefixesAgree(boot: Replicated, h: P.Global, n: NodeId, x: Member, g: P.Global, m: NodeId, y: Member,
                      f: P.Global,
                      k: nat)
    requires At(boot, h, n, x, g) && At(boot, h, m, y, f)
    requires k <= x.raft.commitIndex && k <= y.raft.commitIndex
    ensures k <= |g.core[n].log| && k <= |f.core[m].log| && g.core[n].log[..k] == f.core[m].log[..k]
  {
    InvParts(h);
    hide P.Inv, NodeOk, L.Valid;
    var a, b := g.core[n].log, f.core[m].log;
    CommittedBelow(h, a, x.raft.commitIndex, k, x.raft.currentTerm);
    P.CommittedAgree(h, a, k, x.raft.currentTerm, b, y.raft.commitIndex, y.raft.currentTerm);
  }

  /** A live entry of the engine is the entry of the full log. */
  lemma LiveEntry(s: State, full: seq<Entry>, k: nat)
    requires Holds(s, full) && s.baseIndex < k <= LastIndex(s)
    ensures L.EntryAt(s, k) == Some(full[k - 1]) && TermAt(s, k) == full[k - 1].term
  {
  }

  lemma FullLog(boot: Replicated, h: P.Global, n: NodeId, m: Member, g: P.Global)
    requires At(boot, h, n, m, g)
    ensures P.WellFormed(g) && n in g.ids && Holds(m.raft, g.core[n].log) && g.core[n].term == m.raft.currentTerm
    ensures m.raft.lastApplied <= m.raft.commitIndex && m.sm == Replay(boot, g.core[n].log[..m.raft.lastApplied])
    ensures m.raft.snapshot ==
            if m.raft.baseIndex == 0 then None else Some(Replay(boot, g.core[n].log[..m.raft.baseIndex]))
  {
  }

  // ---- the theorems -----------------------------------------------------

  /** Election safety: over a whole run, no term has two leaders. */
  lemma ElectionSafety(boot: Replicated, b: seq<Cluster>, ev: seq<Event>, i: nat, n: NodeId, j: nat, m: NodeId)
    requires Run(boot, b, ev) && i < |b| && j < |b| && n in b[i].member && m in b[j].member
    requires b[i].member[n].raft.role == Leader && b[j].member[m].raft.role == Leader
    requires b[i].member[n].raft.currentTerm == b[j].member[m].raft.currentTerm
    ensures n == m
  {
    hide Run;
    var hs := Histories(boot, b, ev);
    hide P.Inv;
    assert Agrees(boot, b[i], hs[i]) && Agrees(boot, b[j], hs[j]);
    LeaderParts(boot, hs[i], n, b[i].member[n].raft, b[i].member[n].sm);
    LeaderParts(boot, hs[j], m, b[j].member[m].raft, b[j].member[m].sm);
    assert Later(hs[i], hs[j]) || Later(hs[j], hs[i]);
  }

  /** Any two moments of a run, seen from the later one. */
  lemma TwoMoments(boot: Replicated, b: seq<Cluster>, ev: seq<Event>, i: nat, n: NodeId, j: nat, m: NodeId)
    returns (h: P.Global, g: P.Global, f: P.Global)
    requires Run(boot, b, ev) && i < |b| && j < |b| && n in b[i].member && m in b[j].member
    ensures At(boot, h, n, b[i].member[n], g) && At(boot, h, m, b[j].member[m], f)
    ensures P.Inv(f) && (i <= j ==> h == f)
  {
    hide Run, IsHistory, At;
    var hs := Histories(boot, b, ev);
    var k := Max(i, j);
    MomentAt(boot, b, hs, i, k, n);
    MomentAt(boot, b, hs, j, k, m);
    h, g, f := hs[k], hs[i], hs[j];
    HistoryInv(boot, b, hs, j);
  }

  lemma HistoryInv(boot: Replicated, b: seq<Cluster>, hs: seq<P.Global>, j: nat)
    requires IsHistory(boot, b, hs) && j < |b|
    ensures P.Inv(hs[j])
  {
    assert Agrees(boot, b[j], hs[j]);
  }

  /** State machine safety: members that applied equally much hold the same state. */
  lemma StateMachineSafety(boot: Replicated, b: seq<Cluster>, ev: seq<Event>, i: nat, n: NodeId, j: nat, m: NodeId)
    requires Run(boot, b, ev) && i < |b| && j < |b| && n in b[i].member && m in b[j].member
    requires b[i].member[n].raft.lastApplied == b[j].member[m].raft.lastApplied
    ensures b[i].member[n].sm == b[j].member[m].sm
  {
    hide Run, At;
    var h, g, f := TwoMoments(boot, b, ev, i, n, j, m);
    var x, y := b[i].member[n], b[j].member[m];
    FullLog(boot, h, n, x, g);
    FullLog(boot, h, m, y, f);
    PrefixesAgree(boot, h, n, x, g, m, y, f, x.raft.lastApplied);
  }

  lemma TermOfCut(log: seq<Entry>, k: nat)
    requires k <= |log|
    ensures TermOf(log, k) == TermOf(log[..k], k)
  {
  }

  lemma BasesAgree(boot: Replicated, h: P.Global, n: NodeId, x: Member, g: P.Global, m: NodeId, y: Member, f: P.Global)
    requires At(boot, h, n, x, g) && At(boot, h, m, y, f) && x.raft.baseIndex == y.raft.baseIndex
    ensures x.raft.snapshot == y.raft.snapshot && x.raft.baseTerm == y.raft.baseTerm
  {
    hide At, TermOf;
    FullLog(boot, h, n, x, g);
    FullLog(boot, h, m, y, f);
    var base := x.raft.baseIndex;
    PrefixesAgree(boot, h, n, x, g, m, y, f, base);
    TermOfCut(g.core[n].log, base);
    TermOfCut(f.core[m].log, base);
  }

  /** Snapshots taken at the same index are the same, whoever took them. */
  lemma SnapshotsAgree(boot: Replicated, b: seq<Cluster>, ev: seq<Event>, i: nat, n: NodeId, j: nat, m: NodeId)
    requires Run(boot, b, ev) && i < |b| && j < |b| && n in b[i].member && m in b[j].member
    requires b[i].member[n].raft.baseIndex == b[j].member[m].raft.baseIndex
    ensures b[i].member[n].raft.snapshot == b[j].member[m].raft.snapshot
    ensures b[i].member[n].raft.baseTerm == b[j].member[m].raft.baseTerm
  {
    hide Run, At;
    var h, g, f := TwoMoments(boot, b, ev, i, n, j, m);
    BasesAgree(boot, h, n, b[i].member[n], g, m, b[j].member[m], f);
  }

  /** Where two full logs agree, so do the live entries. */
  lemma EntriesAgree(s: State, a: seq<Entry>, r: State, c: seq<Entry>, k: nat, z: nat)
    requires Holds(s, a) && Holds(r, c) && z <= |a| && z <= |c| && a[..z] == c[..z]
    requires s.baseIndex < k <= z && r.baseIndex < k
    ensures L.EntryAt(s, k).Some? && L.EntryAt(s, k) == L.EntryAt(r, k)
  {
    LiveEntry(s, a, k);
    LiveEntry(r, c, k);
    assert a[k - 1] == a[..z][k - 1] == c[..z][k - 1];
  }

  /** A committed index holds the same entry wherever it is live and committed. */
  lemma CommittedEntriesAgree(boot: Replicated, b: seq<Cluster>, ev: seq<Event>, i: nat, n: NodeId, j: nat, m: NodeId,
                              k: nat)
    requires Run(boot, b, ev) && i < |b| && j < |b| && n in b[i].member && m in b[j].member
    requires var s := b[i].member[n].raft; s.baseIndex < k <= s.commitIndex
    requires var s := b[j].member[m].raft; s.baseIndex < k <= s.commitIndex
    ensures L.EntryAt(b[i].member[n].raft, k).Some?
    ensures L.EntryAt(b[i].member[n].raft, k) == L.EntryAt(b[j].member[m].raft, k)
  {
    hide Run, At, L.EntryAt;
    var h, g, f := TwoMoments(boot, b, ev, i, n, j, m);
    var x, y := b[i].member[n], b[j].member[m];
    FullLog(boot, h, n, x, g);
    FullLog(boot, h, m, y, f);
    PrefixesAgree(boot, h, n, x, g, m, y, f, k);
    EntriesAgree(x.raft, g.core[n].log, y.raft, f.core[m].log, k, k);
  }

  /** The commands an event makes its member apply, with their log indexes. */
  ghost function AppliedBy(c: Cluster, e: Event): seq<(nat, Command)>
    requires Actor(e) in c.member
  {
    if e.Compacts? || e.Restarts? || e.Dies? then [] else TakeReady(Called(c.member[Actor(e)].raft, e)).0.committed
  }

  lemma {:induction false} BatchEntry(s: State, from: nat, upto: nat, k: nat, x: Command)
    requires (k, x) in Batch(s, from, upto)
    ensures from < k <= upto && s.baseIndex < k && L.EntryAt(s, k).Some? && L.EntryAt(s, k).value.command == Some(x)
    decreases upto
  {
    if upto > from && (k, x) in Batch(s, from, upto - 1) {
      BatchEntry(s, from, upto - 1, k, x);
    }
  }

  lemma AppliedEntry(boot: Replicated, c: Cluster, e: Event, d: Cluster, k: nat, x: Command)
    requires Next(boot, c, e, d) && (k, x) in AppliedBy(c, e)
    ensures Actor(e) in d.member
    ensures var s := d.member[Actor(e)].raft;
            s.baseIndex < k <= s.commitIndex && L.EntryAt(s, k).Some? && L.EntryAt(s, k).value.command == Some(x)
  {
    hide Called;
    var s := Called(c.member[Actor(e)].raft, e);
    BatchEntry(s, s.lastApplied, s.commitIndex, k, x);
  }

  /** No two members ever apply different commands at the same log index. */
  lemma AppliedCommandsAgree(boot: Replicated, b: seq<Cluster>, ev: seq<Event>, i: nat, j: nat, k: nat, x: Command,
                             y: Command)
    requires Run(boot, b, ev) && i < |ev| && j < |ev|
    requires Actor(ev[i]) in b[i].member && (k, x) in AppliedBy(b[i], ev[i])
    requires Actor(ev[j]) in b[j].member && (k, y) in AppliedBy(b[j], ev[j])
    ensures x == y
  {
    assert Next(boot, b[i], ev[i], b[i + 1]) && Next(boot, b[j], ev[j], b[j + 1]);
    hide Run, Next, AppliedBy, L.EntryAt;
    AppliedEntry(boot, b[i], ev[i], b[i + 1], k, x);
    AppliedEntry(boot, b[j], ev[j], b[j + 1], k, y);
    CommittedEntriesAgree(boot, b, ev, i + 1, Actor(ev[i]), j + 1, Actor(ev[j]), k);
  }

  // ---- log matching -----------------------------------------------------

  lemma LaterGoodLog(g: P.Global, h: P.Global, log: seq<Entry>, bound: nat)
    requires Later(g, h) && P.GoodLog(g, log, bound)
    ensures P.GoodLog(h, log, bound)
  {
    forall k {:trigger P.EntryOk(h, log, k)} | 0 <= k < |log| ensures P.EntryOk(h, log, k) && log[k].term <= bound {
      assert P.EntryOk(g, log, k);
      assert g.leaderLog[log[k].term] <= h.leaderLog[log[k].term];
    }
  }

  lemma MatchedPrefix(h: P.Global, s: State, a: seq<Entry>, r: State, c: seq<Entry>, k: nat, x: nat, y: nat)
    requires P.WellFormed(h) && P.GoodLog(h, a, x) && P.GoodLog(h, c, y) && Holds(s, a) && Holds(r, c)
    requires 0 < k && s.baseIndex <= k <= |a| && r.baseIndex <= k <= |c| && TermAt(s, k) == TermAt(r, k)
    ensures a[..k] == c[..k]
  {
    assert a[k - 1].term == c[k - 1].term;
    P.LogMatching(h, a, c, k - 1, x, y);
  }

  /**
   * Log matching across snapshots: two members with the same term at an index,
   * live or at the snapshot boundary, have the same live entries up to it.
   */
  lemma LogMatching(boot: Replicated, b: seq<Cluster>, ev: seq<Event>, i: nat, n: NodeId, j: nat, m: NodeId, k: nat,
                    l: nat)
    requires Run(boot, b, ev) && i < |b| && j < |b| && n in b[i].member && m in b[j].member
    requires var s := b[i].member[n].raft; 0 < k && s.baseIndex <= k <= LastIndex(s) && s.baseIndex < l <= k
    requires var s := b[j].member[m].raft; s.baseIndex <= k <= LastIndex(s) && s.baseIndex < l
    requires TermAt(b[i].member[n].raft, k) == TermAt(b[j].member[m].raft, k)
    ensures L.EntryAt(b[i].member[n].raft, l).Some?
    ensures L.EntryAt(b[i].member[n].raft, l) == L.EntryAt(b[j].member[m].raft, l)
  {
    hide Run, At, L.EntryAt, TermAt, P.GoodLog;
    var h, g, f := TwoMomentsGood(boot, b, ev, i, n, j, m);
    var x, y := b[i].member[n], b[j].member[m];
    FullLog(boot, h, n, x, g);
    FullLog(boot, h, m, y, f);
    MatchedPrefix(h, x.raft, g.core[n].log, y.raft, f.core[m].log, k, x.raft.currentTerm, y.raft.currentTerm);
    EntriesAgree(x.raft, g.core[n].log, y.raft, f.core[m].log, l, k);
  }

  lemma TwoMomentsGood(boot: Replicated, b: seq<Cluster>, ev: seq<Event>, i: nat, n: NodeId, j: nat, m: NodeId)
    returns (h: P.Global, g: P.Global, f: P.Global)
    requires Run(boot, b, ev) && i < |b| && j < |b| && n in b[i].member && m in b[j].member
    ensures At(boot, h, n, b[i].member[n], g) && At(boot, h, m, b[j].member[m], f)
    ensures P.WellFormed(h) && n in g.ids && m in f.ids && P.WellFormed(g) && P.WellFormed(f)
    ensures P.GoodLog(h, g.core[n].log, b[i].member[n].raft.currentTerm)
    ensures P.GoodLog(h, f.core[m].log, b[j].member[m].raft.currentTerm)
  {
    hide Run, IsHistory, At, P.GoodLog;
    var hs := Histories(boot, b, ev);
    var k := Max(i, j);
    MomentAt(boot, b, hs, i, k, n);
    MomentAt(boot, b, hs, j, k, m);
    h, g, f := hs[k], hs[i], hs[j];
    MomentGood(boot, b, hs, i, k, n);
    MomentGood(boot, b, hs, j, k, m);
  }

  lemma MomentGood(boot: Replicated, b: seq<Cluster>, hs: seq<P.Global>, i: nat, k: nat, n: NodeId)
    requires IsHistory(boot, b, hs) && i <= k < |b| && n in b[i].member
    ensures P.WellFormed(hs[k]) && P.WellFormed(hs[i]) && n in hs[i].ids
    ensures P.GoodLog(hs[k], hs[i].core[n].log, b[i].member[n].raft.currentTerm)
  {
    assert Agrees(boot, b[i], hs[i]) && Later(hs[i], hs[k]);
    GoodNow(boot, b[i], hs[i], n);
    LaterGoodLog(hs[i], hs[k], hs[i].core[n].log, b[i].member[n].raft.currentTerm);
  }

  lemma GoodNow(boot: Replicated, c: Cluster, g: P.Global, n: NodeId)
    requires Agrees(boot, c, g) && n in c.member
    ensures P.WellFormed(g) && n in g.ids && P.GoodLog(g, g.core[n].log, c.member[n].raft.currentTerm)
  {
    assert MemberOk(boot, g, n, c.member[n]);
  }

  // ---- leader completeness ----------------------------------------------

  lemma ElectedHolds(h: P.Global, f: P.Global, log: seq<Entry>, c: nat, x: nat, u: nat, t: nat, i: nat)
    requires P.WellFormed(h) && P.LeadersOk(h) && P.Complete(h) && P.WellFormed(f) && P.LeadersOk(f) && Later(f, h)
    requires c <= |log| && P.CommitWitness(h, log, c, x, t, i)
    requires u in f.leaderOf && (x < u || (x == u && h == f))
    ensures log[..c] <= f.leaderLog[u]
  {
    if h == f {
      P.LeaderCompleteness(h, t, i, u);
      P.PrefixCut(h.leaderLog[t], h.leaderLog[u], i, c);
    } else {
      P.ChosenNotBlocked(h, t, i);
      assert P.Prefix(h, t, i) <= P.Init(h, u);
      assert P.Init(h, u) == P.Init(f, u) <= f.leaderLog[u];
      P.PrefixCut(h.leaderLog[t], f.leaderLog[u], i, c);
    }
  }

  /** What is committed lies in the log a leader of at least that term has, or had when it was elected later. */
  lemma LeaderLogHolds(h: P.Global, f: P.Global, log: seq<Entry>, c: nat, x: nat, u: nat)
    requires P.Inv(h) && P.Inv(f) && Later(f, h) && P.Committed(h, log, c, x)
    requires u in f.leaderOf && (x < u || (x == u && h == f))
    ensures log[..c] <= f.leaderLog[u]
  {
    InvParts(h);
    InvParts(f);
    hide P.Inv, P.LeadersOk, P.Complete, P.LogsOk, Later;
    if c > 0 {
      var t, i :| P.CommitWitness(h, log, c, x, t, i);
      ElectedHolds(h, f, log, c, x, u, t, i);
    }
  }

  lemma LeaderHolds(boot: Replicated, h: P.Global, n: NodeId, x: Member, g: P.Global, m: NodeId, y: Member, f: P.Global)
    requires At(boot, h, n, x, g) && At(boot, h, m, y, f) && y.raft.role == Leader && P.Inv(f)
    requires n in g.core && m in f.core && x.raft.commitIndex <= |g.core[n].log|
    requires x.raft.currentTerm < y.raft.currentTerm || (x.raft.currentTerm == y.raft.currentTerm && h == f)
    ensures g.core[n].log[..x.raft.commitIndex] <= f.core[m].log
  {
    hide P.Inv, P.Committed, Later;
    LeaderParts(boot, f, m, y.raft, y.sm);
    LeaderLogHolds(h, f, g.core[n].log, x.raft.commitIndex, x.raft.currentTerm, y.raft.currentTerm);
  }

  /**
   * Leader completeness across compaction: an entry committed at `n` is in the
   * log, or under the snapshot base, of every leader of a later term, and of
   * every later leader of the same term.
   */
  lemma LeaderCompleteness(boot: Replicated, b: seq<Cluster>, ev: seq<Event>, i: nat, n: NodeId, j: nat, m: NodeId,
                           k: nat)
    requires Run(boot, b, ev) && i < |b| && j < |b| && n in b[i].member && m in b[j].member
    requires var s := b[i].member[n].raft; s.baseIndex < k <= s.commitIndex
    requires b[j].member[m].raft.role == Leader
    requires var t, u := b[i].member[n].raft.currentTerm, b[j].member[m].raft.currentTerm; t < u || (t == u && i <= j)
    ensures k <= LastIndex(b[j].member[m].raft)
    ensures b[j].member[m].raft.baseIndex < k ==>
              L.EntryAt(b[j].member[m].raft, k) == L.EntryAt(b[i].member[n].raft, k)
  {
    hide Run, At, L.EntryAt;
    var h, g, f := TwoMoments(boot, b, ev, i, n, j, m);
    var x, y := b[i].member[n], b[j].member[m];
    FullLog(boot, h, n, x, g);
    FullLog(boot, h, m, y, f);
    LeaderHolds(boot, h, n, x, g, m, y, f);
    if y.raft.baseIndex < k {
      var c := x.raft.commitIndex;
      assert f.core[m].log[..c] == g.core[n].log[..c];
      EntriesAgree(x.raft, g.core[n].log, y.raft, f.core[m].log, k, c);
    }
  }

  // ---- acknowledged proposals -------------------------------------------

  /** What the driver reads before it reports success: the index is committed in the term it was proposed in. */
  predicate Acknowledges(s: State, index: nat, term: nat) {
    D.Confirms(D.ReadingOf(s, true), index, term)
  }

  /** A proposal by a leader puts the command at the end of its log, in its term. */
  lemma ProposedEntry(boot: Replicated, c: Cluster, e: Event, d: Cluster)
    requires Next(boot, c, e, d) && e.Proposes? && c.member[e.n].raft.role == Leader
    ensures e.n in d.member
    ensures var s, r := c.member[e.n].raft, d.member[e.n].raft;
            r.role == Leader && r.currentTerm == s.currentTerm && r.baseIndex == s.baseIndex
            && r.log == s.log + [Entry(s.currentTerm, LastIndex(s) + 1, Some(e.command))]
  {
    hide Batch, HighestCommittable, SendAppends;
    var s := c.member[e.n].raft;
    var a := s.(log := s.log + [Entry(s.currentTerm, LastIndex(s) + 1, Some(e.command))], dirty := true);
    assert Called(s, e) == BroadcastAppend(MaybeAdvanceCommit(a));
  }

  /** The leader of a term holds, at the index it acknowledged, what it once put there in that term. */
  lemma AcknowledgedIs(boot: Replicated, n: NodeId, x: Member, g: P.Global, y: Member, f: P.Global, index: nat)
    requires At(boot, f, n, x, g) && At(boot, f, n, y, f) && x.raft.role == Leader
    requires Acknowledges(y.raft, index, x.raft.currentTerm) && 0 < index <= LastIndex(x.raft)
    ensures n in g.core && n in f.core && index <= |g.core[n].log| && index <= |f.core[n].log|
    ensures f.core[n].log[index - 1] == g.core[n].log[index - 1]
  {
    hide P.Inv, P.Committed;
    LeaderParts(boot, g, n, x.raft, x.sm);
    var t := x.raft.currentTerm;
    LeaderLogHolds(f, f, f.core[n].log, y.raft.commitIndex, t, t);
    var c := y.raft.commitIndex;
    assert f.core[n].log[index - 1] == f.core[n].log[..c][index - 1] == f.leaderLog[t][index - 1];
    assert g.leaderLog[t] <= f.leaderLog[t];
  }

  lemma LastEntry(boot: Replicated, h: P.Global, n: NodeId, m: Member, g: P.Global, e: Entry)
    requires At(boot, h, n, m, g) && m.raft.log != [] && m.raft.log[|m.raft.log| - 1] == e
    ensures n in g.core && |g.core[n].log| == LastIndex(m.raft) && g.core[n].log[LastIndex(m.raft) - 1] == e
  {
    hide At, P.WellFormed, Replay;
    FullLog(boot, h, n, m, g);
  }

  lemma RunStep(boot: Replicated, b: seq<Cluster>, ev: seq<Event>, i: nat)
    requires Run(boot, b, ev) && i + 1 < |b|
    ensures |b| == |ev| + 1 && Next(boot, b[i], ev[i], b[i + 1])
  {
  }

  lemma AcknowledgedAt(boot: Replicated, n: NodeId, x: Member, g: P.Global, y: Member, f: P.Global, index: nat,
                       e: Entry)
    requires At(boot, f, n, x, g) && At(boot, f, n, y, f) && x.raft.role == Leader
    requires index == LastIndex(x.raft) && x.raft.log != [] && x.raft.log[|x.raft.log| - 1] == e
    requires Acknowledges(y.raft, index, x.raft.currentTerm)
    ensures n in f.core && 0 < index <= |f.core[n].log| && f.core[n].log[index - 1] == e
  {
    hide At;
    LastEntry(boot, f, n, x, g, e);
    AcknowledgedIs(boot, n, x, g, y, f, index);
  }

  /** In the log of the proposer, the acknowledged index holds the proposed command. */
  lemma AcknowledgedEntry(boot: Replicated, b: seq<Cluster>, ev: seq<Event>, hs: seq<P.Global>, i: nat, j: nat,
                          index: nat, e: Entry)
    requires Run(boot, b, ev) && |hs| == |b| && IsHistory(boot, b, hs) && |b| == |ev| + 1 && i < j < |b|
    requires ev[i].Proposes? && ev[i].n in b[i].member
    requires var s := b[i].member[ev[i].n].raft;
             s.role == Leader && index == LastIndex(s) + 1 && e == Entry(s.currentTerm, index, Some(ev[i].command))
    requires ev[i].n in b[j].member && Acknowledges(b[j].member[ev[i].n].raft, index, e.term)
    ensures ev[i].n in hs[j].core && 0 < index <= |hs[j].core[ev[i].n].log|
    ensures hs[j].core[ev[i].n].log[index - 1] == e
  {
    hide Run, At, Next, IsHistory;
    var n := ev[i].n;
    RunStep(boot, b, ev, i);
    ProposedEntry(boot, b[i], ev[i], b[i + 1]);
    MomentAt(boot, b, hs, i + 1, j, n);
    MomentAt(boot, b, hs, j, j, n);
    AcknowledgedAt(boot, n, b[i + 1].member[n], hs[i + 1], b[j].member[n], hs[j], index, e);
  }

  /** A member whose log agrees up to `c` holds the entry at `index`, live or compacted. */
  lemma HoldsEntry(boot: Replicated, h: P.Global, m: NodeId, y: Member, f: P.Global, full: seq<Entry>, c: nat,
                   index: nat)
    requires At(boot, h, m, y, f) && 0 < index <= c <= |full| && full[..c] <= f.core[m].log
    ensures index <= LastIndex(y.raft)
    ensures y.raft.baseIndex < index ==> L.EntryAt(y.raft, index) == Some(full[index - 1])
  {
    FullLog(boot, h, m, y, f);
    if y.raft.baseIndex < index {
      LiveEntry(y.raft, f.core[m].log, index);
      assert f.core[m].log[index - 1] == full[..c][index - 1];
    }
  }

  /**
   * Acknowledged means permanent. If a leader proposed a command and the driver
   * later saw its index committed while still in that term - even after stepping
   * down within it - then every later leader, and every member that has
   * committed that far, holds exactly that command at that index, unless it lies
   * below the snapshot base already.
   */
  lemma AcknowledgedIsPermanent(boot: Replicated, b: seq<Cluster>, ev: seq<Event>, i: nat, j: nat, index: nat, e: Entry,
                                k: nat, m: NodeId)
    requires Run(boot, b, ev) && i < j < |b| && ev[i].Proposes? && ev[i].n in b[i].member
    requires var s := b[i].member[ev[i].n].raft;
             s.role == Leader && index == LastIndex(s) + 1 && e == Entry(s.currentTerm, index, Some(ev[i].command))
    requires ev[i].n in b[j].member && Acknowledges(b[j].member[ev[i].n].raft, index, e.term)
    requires k < |b| && m in b[k].member
    requires var r := b[k].member[m].raft;
             r.commitIndex >= index
             || (r.role == Leader && (r.currentTerm > e.term || (r.currentTerm == e.term && j <= k)))
    ensures var r := b[k].member[m].raft;
            index <= LastIndex(r) && (r.baseIndex < index ==> L.EntryAt(r, index) == Some(e))
  {
    hide Run, At, IsHistory, L.EntryAt;
    var hs := Histories(boot, b, ev);
    RunStep(boot, b, ev, i);
    AcknowledgedEntry(boot, b, ev, hs, i, j, index, e);
    var n, z := ev[i].n, Max(j, k);
    MomentAt(boot, b, hs, j, z, n);
    MomentAt(boot, b, hs, k, z, m);
    HistoryInv(boot, b, hs, k);
    PermanentAt(boot, hs[z], n, b[j].member[n], hs[j], m, b[k].member[m], hs[k], index);
  }

  lemma PermanentAt(boot: Replicated, h: P.Global, n: NodeId, x: Member, g: P.Global, m: NodeId, y: Member, f: P.Global,
                    index: nat)
    requires At(boot, h, n, x, g) && At(boot, h, m, y, f) && P.Inv(f) && 0 < index <= x.raft.commitIndex
    requires y.raft.commitIndex >= index
             || (y.raft.role == Leader && (y.raft.currentTerm > x.raft.currentTerm
                                           || (y.raft.currentTerm == x.raft.currentTerm && h == f)))
    ensures index <= LastIndex(y.raft) && n in g.core && index <= |g.core[n].log|
    ensures y.raft.baseIndex < index ==> L.EntryAt(y.raft, index) == Some(g.core[n].log[index - 1])
  {
    hide At, L.EntryAt;
    FullLog(boot, h, n, x, g);
    FullLog(boot, h, m, y, f);
    var full := g.core[n].log;
    if y.raft.commitIndex >= index {
      PrefixesAgree(boot, h, n, x, g, m, y, f, index);
      HoldsEntry(boot, h, m, y, f, full, index, index);
    } else {
      LeaderHolds(boot, h, n, x, g, m, y, f);
      HoldsEntry(boot, h, m, y, f, full, x.raft.commitIndex, index);
    }
  }

  /** At every moment of a run, each member's store holds exactly its durable state, and it is valid. */
  lemma AlwaysSaved(boot: Replicated, b: seq<Cluster>, ev: seq<Event>, i: nat, n: NodeId)
    requires Run(boot, b, ev) && i < |b| && n in b[i].member
    ensures b[i].member[n].disk == Durable(b[i].member[n].raft) && L.ValidPersisted(b[i].member[n].disk)
  {
    hide Run;
    var hs := Histories(boot, b, ev);
    assert Agrees(boot, b[i], hs[i]);
    hide P.Inv, NodeOk;
    assert MemberOk(boot, hs[i], n, b[i].member[n]);
  }
}
