/**
 * What a proposer may tell its client under careful overlapping drains. The commit
 * index it reads is in memory only, and it may crash before any of it is saved; still,
 * once it has read the index of its proposal committed in the proposal's term, the
 * command is there for good.
 */
module RaftPromise {
  import opened Model
  import opened RaftSpec
  import opened RaftNode
  import opened RaftOverlap
  import opened RaftDelay
  import opened RaftFork
  import opened RaftCareful
  import opened RaftCourse
  import C = RaftCluster
  import F = StoreRecovery
  import L = RaftLocal
  import O = RaftOverlapSafety
  import P = Protocol
  import S = RaftSafety
  import RaftCommit

  /** Member `n` has put `e` at `index` in the term it leads. */
  datatype Promise = Promise(n: NodeId, index: nat, e: Entry)

  ghost predicate FixedBy(g: P.Global, w: Promise, log: seq<Entry>) {
    && P.WellFormed(g) && 0 < w.index <= |log| && log[w.index - 1] == w.e
    && P.Committed(g, log, w.index, w.e.term)
  }

  /** The history has committed the entry. */
  ghost predicate Fixed(g: P.Global, w: Promise) { exists log :: FixedBy(g, w, log) }

  lemma FixedStays(g: P.Global, z: P.Global, w: Promise)
    requires Fixed(g, w) && C.Later(g, z)
    ensures Fixed(z, w)
  {
    hide C.Later, P.Committed;
    var log :| FixedBy(g, w, log);
    S.LaterCommitted(g, z, log, w.index, w.e.term);
    LaterFormed(g, z);
    assert FixedBy(z, w, log);
  }

  lemma LaterFormed(g: P.Global, z: P.Global)
    requires C.Later(g, z)
    ensures P.WellFormed(z)
  {
  }

  /** The entry is in what was saved, or the history has committed it. */
  ghost predicate Has(g: P.Global, w: Promise, p: Persisted) { Fixed(g, w) || F.Live(p, w.index) == Some(w.e) }

  /** A state that a crash may bring back: past the term, or it has the entry, or it commits less. */
  ghost predicate SavedOk(g: P.Global, w: Promise, p: Persisted) {
    p.currentTerm > w.e.term || (p.currentTerm == w.e.term && (Has(g, w, p) || p.commitIndex < w.index))
  }

  /** The engine: the same, but what does not have the entry is out of office and will not commit in this term. */
  ghost predicate EngineOk(g: P.Global, w: Promise, s: State) {
    || s.currentTerm > w.e.term
    || (s.currentTerm == w.e.term && (Has(g, w, Durable(s)) || (s.commitIndex < w.index && !L.InOffice(s))))
  }

  ghost predicate Stands(g: P.Global, w: Promise, m: Member) {
    && EngineOk(g, w, m.raft) && SavedOk(g, w, m.disk)
    && (m.writing.Some? ==> SavedOk(g, w, m.writing.value.contents))
  }

  lemma StandsLater(g: P.Global, z: P.Global, w: Promise, m: Member)
    requires Stands(g, w, m) && C.Later(g, z)
    ensures Stands(z, w, m)
  {
    hide C.Later, Fixed, F.Live;
    if Fixed(g, w) {
      FixedStays(g, z, w);
    }
  }

  // ---- calls ------------------------------------------------------------

  /** Nobody else speaks as leader of a term in which `n` has the votes of a quorum. */
  lemma NotLed(boot: Replicated, g: P.Global, n: NodeId, q: set<NodeId>, log: seq<Entry>, s: State, e: C.Event)
    requires P.Inv(g) && Voted(g, s.currentTerm, n, q, log) && n !in s.peers
    requires e.Receives? ==> MsgOk(boot, g, e.packet.from, n, e.packet.msg)
    ensures !Led(s, e)
  {
    hide P.VotesOk, P.VotedFor, P.LeadersOk, P.Complete, P.LogsOk, P.AcksOk, P.Kept, P.CommitsOk;
    if Led(s, e) {
      var t := s.currentTerm;
      assert t in g.leaderOf && g.leaderOf[t] == e.packet.from;
      P.OneLeader(g, t, n, q);
      assert false;
    }
  }

  lemma CallStands(g: P.Global, w: Promise, s: State, e: C.Event, q: State)
    requires EngineOk(g, w, s) && Follows(s, e, q) && (s.currentTerm == w.e.term ==> !Led(s, e))
    ensures EngineOk(g, w, q)
  {
    hide Fixed, Sourced;
  }

  lemma BeginsStands(g: P.Global, w: Promise, m: Member, e: C.Event)
    requires Stands(g, w, m) && (m.raft.currentTerm == w.e.term ==> !Led(m.raft, e)) && IsCall(w.n, e)
    ensures Stands(g, w, Begun(m, e).0)
  {
    CallFollows(m.raft, e);
    CallStands(g, w, m.raft, e, C.Called(m.raft, e));
    hide C.Called, Fixed, F.Live, Follows;
    assert Durable(Begun(m, e).0.raft) == Durable(C.Called(m.raft, e));
  }

  // ---- compactions ------------------------------------------------------

  /** What the member itself has committed, the history has. */
  lemma CommittedIsFixed(boot: Replicated, z: P.Global, g: P.Global, h: P.Global, w: Promise, m: Member)
    requires Branch(boot, z, g, h, w.n, m) && m.raft.currentTerm == w.e.term && 0 < w.index <= m.raft.commitIndex
    requires F.Live(Durable(m.raft), w.index) == Some(w.e)
    ensures Fixed(z, w)
  {
    hide Branch, P.Committed, Holds, F.Live, Durable;
    BranchParts(boot, z, g, h, w.n, m);
    var full := h.core[w.n].log;
    CommittedBelow(z, full, m.raft.commitIndex, w.index, w.e.term);
    LiveInFull(m.raft, full, w.index, w.e);
    assert FixedBy(z, w, full);
  }

  lemma LiveInFull(s: State, full: seq<Entry>, k: nat, e: Entry)
    requires Holds(s, full) && F.Live(Durable(s), k) == Some(e)
    ensures 0 < k <= |full| && full[k - 1] == e
  {
  }

  /** Compaction leaves everything beyond its index as it is. */
  lemma CompactLive(s: State, index: nat, data: Replicated, k: nat)
    ensures var r := Compact(s, index, data);
            && r.currentTerm == s.currentTerm && r.commitIndex == s.commitIndex && r.role == s.role
            && (index < k ==> F.Live(Durable(r), k) == F.Live(Durable(s), k))
  {
    hide TermAt;
  }

  lemma CompactStands(boot: Replicated, g: P.Global, h: P.Global, w: Promise, m: Member)
    requires Stands(g, w, m) && Branch(boot, g, g, h, w.n, m) && w.index > 0
    ensures var r := Compact(m.raft, m.raft.lastApplied, m.sm);
            Stands(g, w, m.(raft := r, disk := Durable(r)))
  {
    hide Branch, Fixed, Compact, F.Live, P.Committed, Holds;
    BranchParts(boot, g, g, h, w.n, m);
    CompactLive(m.raft, m.raft.lastApplied, m.sm, w.index);
    if m.raft.currentTerm == w.e.term && w.index <= m.raft.commitIndex && !Fixed(g, w) {
      CommittedIsFixed(boot, g, g, h, w, m);
    }
  }

  // ---- every event ------------------------------------------------------

  lemma EventStands(boot: Replicated, b: Group, ev: Event, d: Group, g: P.Global, h: P.Global, w: Promise,
                    q: set<NodeId>, log: seq<Entry>)
    requires Next(boot, b, ev, d) && Careful(b, ev) && w.n in b.member && w.index > 0
    requires Stands(g, w, b.member[w.n]) && Branch(boot, g, g, h, w.n, b.member[w.n])
    requires Voted(g, w.e.term, w.n, q, log) && C.NetOk(boot, g, b.net)
    ensures w.n in d.member && Stands(g, w, d.member[w.n])
  {
    hide Branch, Stands, Begun, Fixed, Voted, MsgOk, Compact, MayFind;
    var n, m := w.n, b.member[w.n];
    if Actor(ev) == n {
      match ev
      case Begins(event) =>
        BranchNames(boot, g, g, h, n, m);
        if m.raft.currentTerm == w.e.term {
          NotLed(boot, g, n, q, log, m.raft, event);
        }
        BeginsStands(g, w, m, event);
      case Reads(_, k) => SaveStands(g, w, m);
      case Completes(_) => SaveStands(g, w, m);
      case Compacts(_, _, _) => CompactStands(boot, g, h, w, m);
      case Crashes(_, found, draws) => CrashStands(boot, g, w, m, found, draws);
    }
  }

  lemma BranchNames(boot: Replicated, z: P.Global, g: P.Global, h: P.Global, n: NodeId, m: Member)
    requires Branch(boot, z, g, h, n, m)
    ensures P.Inv(g) && n !in m.raft.peers
  {
  }

  lemma SaveStands(g: P.Global, w: Promise, m: Member)
    requires Stands(g, w, m)
    ensures forall rest, ready ::
              Stands(g, w, m.(waiting := rest, writing := Some(Write(Durable(m.raft), ready))))
    ensures m.writing.Some? ==> Stands(g, w, m.(disk := m.writing.value.contents, writing := None))
  {
    hide Fixed, F.Live;
  }

  lemma CrashStands(boot: Replicated, g: P.Global, w: Promise, m: Member, found: Persisted, draws: nat -> nat)
    requires Stands(g, w, m) && (found == m.disk || (m.writing.Some? && found == m.writing.value.contents))
    ensures Stands(g, w, Reborn(boot, w.n, m, found, draws))
  {
    hide Fixed, F.Live, Timeout;
    assert Durable(Reborn(boot, w.n, m, found, draws).raft) == found;
  }

  // ---- runs -------------------------------------------------------------

  /** The promise stands at moment `k`, and the history knows the votes behind it. */
  ghost predicate StandsAt(b: seq<Group>, hs: seq<P.Global>, at: seq<nat>, w: Promise, q: set<NodeId>, log: seq<Entry>,
                           k: nat) {
    && k < |b| && k < |at| && at[k] < |hs| && w.n in b[k].member
    && Stands(hs[at[k]], w, b[k].member[w.n]) && Voted(hs[at[k]], w.e.term, w.n, q, log)
  }

  lemma NetTrue(boot: Replicated, b: seq<Group>, cb: seq<C.Cluster>, hs: seq<P.Global>, at: seq<nat>,
                pss: seq<map<NodeId, Pending>>, k: nat)
    requires Witnessed(boot, b, cb, hs, at, pss) && k < |b|
    ensures at[k] < |hs| && P.WellFormed(hs[at[k]]) && C.NetOk(boot, hs[at[k]], b[k].net)
  {
    hide Delayed, C.MemberOk, MsgOk;
    assert Shadows(b[k], cb[at[k]], pss[k]) && C.Agrees(boot, cb[at[k]], hs[at[k]]);
  }

  lemma StandsNext(boot: Replicated, b: seq<Group>, ev: seq<Event>, cb: seq<C.Cluster>, hs: seq<P.Global>, at: seq<nat>,
                   pss: seq<map<NodeId, Pending>>, w: Promise, q: set<NodeId>, log: seq<Entry>, k: nat)
    requires CarefulRun(boot, b, ev) && |b[0].member.Keys| > 1 && Witnessed(boot, b, cb, hs, at, pss)
    requires k + 1 < |b| && StandsAt(b, hs, at, w, q, log, k) && w.index > 0 && |at| == |b|
    ensures StandsAt(b, hs, at, w, q, log, k + 1)
  {
    assert Next(boot, b[k], ev[k], b[k + 1]) && Careful(b[k], ev[k]);
    hide CarefulRun, Next, Careful, Witnessed, Branch, Stands, Voted, C.NetOk, C.Later;
    ManyMembers(boot, b, ev, k);
    var h := BranchAt(boot, b, cb, hs, at, pss, k, k, w.n);
    LaterMoment(boot, b, cb, hs, at, pss, k);
    NetTrue(boot, b, cb, hs, at, pss, k);
    EventStands(boot, b[k], ev[k], b[k + 1], hs[at[k]], h, w, q, log);
    StandsLater(hs[at[k]], hs[at[k + 1]], w, b[k + 1].member[w.n]);
    VotedStays(hs[at[k]], hs[at[k + 1]], w.e.term, w.n, q, log);
  }

  lemma LaterMoment(boot: Replicated, b: seq<Group>, cb: seq<C.Cluster>, hs: seq<P.Global>, at: seq<nat>,
                    pss: seq<map<NodeId, Pending>>, k: nat)
    requires Witnessed(boot, b, cb, hs, at, pss) && k + 1 < |b|
    ensures |at| == |b| && at[k] < |hs| && at[k + 1] < |hs| && C.Later(hs[at[k]], hs[at[k + 1]])
  {
    hide Shadows, C.Agrees, C.Later;
    assert at[k] <= at[k + 1];
  }

  lemma {:induction false} StandsLong(boot: Replicated, b: seq<Group>, ev: seq<Event>, cb: seq<C.Cluster>,
                                      hs: seq<P.Global>, at: seq<nat>, pss: seq<map<NodeId, Pending>>, w: Promise,
                                      q: set<NodeId>, log: seq<Entry>, i: nat, j: nat)
    requires CarefulRun(boot, b, ev) && |b[0].member.Keys| > 1 && Witnessed(boot, b, cb, hs, at, pss)
    requires i <= j < |b| && StandsAt(b, hs, at, w, q, log, i) && w.index > 0 && |at| == |b|
    ensures StandsAt(b, hs, at, w, q, log, j)
    decreases j
  {
    hide CarefulRun, Witnessed, StandsAt;
    if i < j {
      StandsLong(boot, b, ev, cb, hs, at, pss, w, q, log, i, j - 1);
      StandsNext(boot, b, ev, cb, hs, at, pss, w, q, log, j - 1);
    }
  }

  // ---- the proposal -----------------------------------------------------

  /** A leader's proposal puts the command at the end of its log, and asks for a save. */
  lemma ProposedOne(m: Member, n: NodeId, command: Command)
    requires m.raft.role == Leader
    ensures var s, d := m.raft, Begun(m, C.Proposes(n, command)).0;
            && d.raft.role == Leader && d.raft.currentTerm == s.currentTerm
            && d.disk == m.disk && d.writing == m.writing
            && F.Live(Durable(d.raft), LastIndex(s) + 1)
               == Some(Entry(s.currentTerm, LastIndex(s) + 1, Some(command)))
  {
    hide Batch, HighestCommittable, SendAppends, RaftCommit.Deliver;
    var s := m.raft;
    var a := s.(log := s.log + [Entry(s.currentTerm, LastIndex(s) + 1, Some(command))], dirty := true);
    assert C.Called(s, C.Proposes(n, command)) == BroadcastAppend(MaybeAdvanceCommit(a));
  }

  /** Who has been voted for has saved that it campaigned. */
  lemma DiskTerm(boot: Replicated, b: seq<Group>, cb: seq<C.Cluster>, hs: seq<P.Global>, at: seq<nat>,
                 pss: seq<map<NodeId, Pending>>, k: nat, n: NodeId, u: nat, q: set<NodeId>, log: seq<Entry>)
    requires Witnessed(boot, b, cb, hs, at, pss) && k < |b| && n in b[k].member
    requires at[k] < |hs| && Voted(hs[at[k]], u, n, q, log)
    ensures b[k].member[n].disk.currentTerm >= u
  {
    hide HandedOut, C.NetOk, Play, L.Valid;
    var x := cb[at[k]].member[n];
    assert Shadows(b[k], cb[at[k]], pss[k]) && C.Agrees(boot, cb[at[k]], hs[at[k]]);
    assert Delayed(n, b[k].member[n], x, b[k].net, cb[at[k]].net, pss[k][n]) && C.MemberOk(boot, hs[at[k]], n, x);
    VotedTerm(hs[at[k]], n, u);
  }

  lemma VotedTerm(g: P.Global, n: NodeId, u: nat)
    requires P.Inv(g) && (u, n) in g.candLog
    ensures n in g.core && u <= g.core[n].term
  {
  }

  /** The disk and the save under way lie between what was there and the engine. */
  lemma SavesBehind(boot: Replicated, b: seq<Group>, ev: seq<Event>, k: nat, n: NodeId)
    requires CarefulRun(boot, b, ev) && k < |b| && n in b[k].member
    ensures var m := b[k].member[n];
            && m.raft.commitIndex <= LastIndex(m.raft)
            && m.disk.commitIndex <= m.raft.commitIndex && m.disk.currentTerm <= m.raft.currentTerm
            && (m.writing.Some? ==>
                  var p := m.writing.value.contents;
                  p.commitIndex <= m.raft.commitIndex && m.disk.currentTerm <= p.currentTerm <= m.raft.currentTerm)
  {
    hide O.Backed, O.Single, O.Asked, O.Elected;
    O.RunOk(boot, b, ev, k, k);
    assert O.Ok(b[k], n);
  }

  /** The promise stands right after the proposal. */
  lemma StandsFirst(boot: Replicated, b: seq<Group>, ev: seq<Event>, cb: seq<C.Cluster>, hs: seq<P.Global>,
                    at: seq<nat>, pss: seq<map<NodeId, Pending>>, w: Promise, i: nat, command: Command)
    returns (q: set<NodeId>, log: seq<Entry>)
    requires CarefulRun(boot, b, ev) && |b[0].member.Keys| > 1 && Witnessed(boot, b, cb, hs, at, pss) && |at| == |b|
    requires i + 1 < |b| && |b| == |ev| + 1 && ev[i] == Begins(C.Proposes(w.n, command)) && w.n in b[i].member
    requires var s := b[i].member[w.n].raft;
             s.role == Leader && w.index == LastIndex(s) + 1 && w.e == Entry(s.currentTerm, w.index, Some(command))
    ensures StandsAt(b, hs, at, w, q, log, i + 1)
  {
    hide CarefulRun, Witnessed, Branch, Voted, Begun, Stands;
    var n := w.n;
    ProposalMade(boot, b, ev, i, n, command);
    var m, d := b[i].member[n], b[i + 1].member[n];
    ProposedOne(m, n, command);
    ManyMembers(boot, b, ev, i + 1);
    var h := BranchAt(boot, b, cb, hs, at, pss, i + 1, i + 1, n);
    q := LeaderVoted(boot, hs[at[i + 1]], hs[at[i + 1]], h, n, d);
    log := h.core[n].log;
    DiskTerm(boot, b, cb, hs, at, pss, i + 1, n, w.e.term, q, log);
    SavesBehind(boot, b, ev, i, n);
    SavesBehind(boot, b, ev, i + 1, n);
    StandsAnew(hs[at[i + 1]], w, d);
  }

  lemma ProposalMade(boot: Replicated, b: seq<Group>, ev: seq<Event>, i: nat, n: NodeId, command: Command)
    requires CarefulRun(boot, b, ev) && i + 1 < |b| && |b| == |ev| + 1 && ev[i] == Begins(C.Proposes(n, command))
    ensures n in b[i].member && n in b[i + 1].member
    ensures b[i + 1].member[n] == Begun(b[i].member[n], C.Proposes(n, command)).0
  {
    hide Begun, Start, Careful;
    assert Next(boot, b[i], ev[i], b[i + 1]);
  }

  lemma StandsAnew(g: P.Global, w: Promise, d: Member)
    requires d.raft.currentTerm == w.e.term && F.Live(Durable(d.raft), w.index) == Some(w.e)
    requires d.disk.currentTerm == w.e.term && d.disk.commitIndex < w.index
    requires d.writing.Some? ==>
               var p := d.writing.value.contents; p.currentTerm == w.e.term && p.commitIndex < w.index
    ensures Stands(g, w, d)
  {
    hide Fixed, F.Live;
  }

  /** Where the promise stands and the reading confirms it, the history has committed the entry. */
  lemma ConfirmedIsFixed(boot: Replicated, g: P.Global, h: P.Global, w: Promise, m: Member)
    requires Stands(g, w, m) && Branch(boot, g, g, h, w.n, m) && w.index > 0
    requires S.Acknowledges(m.raft, w.index, w.e.term)
    ensures Fixed(g, w)
  {
    hide Branch, Fixed;
    if !Fixed(g, w) {
      CommittedIsFixed(boot, g, g, h, w, m);
    }
  }

  /** Whoever has committed that far, or leads late enough, holds what is fixed. */
  lemma FixedHolds(boot: Replicated, z: P.Global, g: P.Global, h: P.Global, w: Promise, m: NodeId, y: Member)
    requires Fixed(z, w) && Branch(boot, z, g, h, m, y)
    requires y.raft.commitIndex >= w.index
             || (y.raft.role == Leader && (y.raft.currentTerm > w.e.term
                                           || (y.raft.currentTerm == w.e.term && z == g)))
    ensures w.index <= LastIndex(y.raft)
    ensures y.raft.baseIndex < w.index ==> L.EntryAt(y.raft, w.index) == Some(w.e)
  {
    hide Branch, P.Committed, L.EntryAt, Holds, P.Inv, C.Later;
    var log :| FixedBy(z, w, log);
    BranchParts(boot, z, g, h, m, y);
    BranchInv(boot, z, g, h, m, y);
    var full := h.core[m].log;
    if y.raft.commitIndex >= w.index {
      PrefixesAgree(z, log, w.index, w.e.term, full, y.raft.commitIndex, y.raft.currentTerm, w.index);
    } else {
      LeaderHolds(boot, z, log, w.index, w.e.term, g, h, m, y);
    }
    SharedEntry(y.raft, full, log, w.index);
  }

  lemma SharedEntry(s: State, full: seq<Entry>, log: seq<Entry>, k: nat)
    requires Holds(s, full) && 0 < k <= |log| && log[..k] <= full
    ensures k <= LastIndex(s) && (s.baseIndex < k ==> L.EntryAt(s, k) == Some(log[k - 1]))
  {
    assert full[k - 1] == full[..k][k - 1] == log[..k][k - 1];
    if s.baseIndex < k {
      S.LiveEntry(s, full, k);
    }
  }

  /**
   * Acknowledged means permanent, with overlapping drains too. If a leader proposed a
   * command and later, in memory, read its index committed in that term, then whoever
   * has committed that far, every leader of a later term, and every leader of the same
   * term from then on, holds exactly that command there, live or under its base; whatever
   * crashes, and whether or not the reader ever saved what it read.
   */
  lemma AcknowledgedIsPermanent(boot: Replicated, b: seq<Group>, ev: seq<Event>, i: nat, j: nat, w: Promise,
                                command: Command, k: nat, m: NodeId)
    requires CarefulRun(boot, b, ev) && |b[0].member.Keys| > 1
    requires i < j < |b| && |b| == |ev| + 1 && ev[i] == Begins(C.Proposes(w.n, command)) && w.n in b[i].member
    requires var s := b[i].member[w.n].raft;
             s.role == Leader && w.index == LastIndex(s) + 1 && w.e == Entry(s.currentTerm, w.index, Some(command))
    requires w.n in b[j].member && S.Acknowledges(b[j].member[w.n].raft, w.index, w.e.term)
    requires k < |b| && m in b[k].member
    requires var r := b[k].member[m].raft;
             r.commitIndex >= w.index
             || (r.role == Leader && (r.currentTerm > w.e.term || (r.currentTerm == w.e.term && j <= k)))
    ensures var r := b[k].member[m].raft;
            w.index <= LastIndex(r) && (r.baseIndex < w.index ==> L.EntryAt(r, w.index) == Some(w.e))
  {
    hide CarefulRun, Witnessed, StandsAt, Branch, Stands, Fixed, L.EntryAt, S.Acknowledges, C.Later;
    var cb, hs, at, pss := Witness(boot, b, ev);
    var q, log := StandsFirst(boot, b, ev, cb, hs, at, pss, w, i, command);
    StandsLong(boot, b, ev, cb, hs, at, pss, w, q, log, i + 1, j);
    ManyMembers(boot, b, ev, j);
    ManyMembers(boot, b, ev, k);
    var z := Max(j, k);
    var h := BranchAt(boot, b, cb, hs, at, pss, j, j, w.n);
    StandsThen(b, hs, at, w, q, log, j);
    ConfirmedIsFixed(boot, hs[at[j]], h, w, b[j].member[w.n]);
    var hz := BranchAt(boot, b, cb, hs, at, pss, j, z, w.n);
    FixedStays(hs[at[j]], hs[at[z]], w);
    var hk := BranchAt(boot, b, cb, hs, at, pss, k, z, m);
    FixedHolds(boot, hs[at[z]], hs[at[k]], hk, w, m, b[k].member[m]);
  }

  lemma StandsThen(b: seq<Group>, hs: seq<P.Global>, at: seq<nat>, w: Promise, q: set<NodeId>, log: seq<Entry>, k: nat)
    requires StandsAt(b, hs, at, w, q, log, k)
    ensures k < |b| && k < |at| && at[k] < |hs| && w.n in b[k].member && Stands(hs[at[k]], w, b[k].member[w.n])
  {
  }
}
