/**
 * From runs of the group to the driver: the batches a member hands out between
 * restarts chain without gap or repeat over one log that every other member's
 * applied state is a fold of, so the driver's guarantees hold in every run.
 */
module RaftDelivery {
  import opened Model
  import opened RaftSpec
  import opened RaftNode
  import opened RaftCluster
  import opened RaftDriver
  import C = RaftCommit
  import L = RaftLocal
  import P = Protocol
  import G = RaftProgress
  import F = RaftSafety

  predicate StartsOver(e: Event) { e.Restarts? || e.Dies? }

  predicate Drains(e: Event) { e.Ticks? || e.Receives? || e.Proposes? }

  /** What `n` hands out in the events `ev` of a run `b`, in order. */
  ghost function HandedOut(b: seq<Cluster>, ev: seq<Event>, n: NodeId): seq<Ready>
    requires |b| == |ev| + 1 && forall i :: 0 <= i < |b| ==> n in b[i].member
    decreases |ev|
  {
    if ev == [] then []
    else
      var k := |ev| - 1;
      var before := HandedOut(b[..k + 1], ev[..k], n);
      if Actor(ev[k]) == n && Drains(ev[k]) then before + [TakeReady(Called(b[k].member[n].raft, ev[k])).0] else before
  }

  /** The stretch a ready hands out, read off the full log the member holds afterwards. */
  lemma {:induction false} BatchIsNumbered(s: State, full: seq<Entry>, from: nat, upto: nat)
    requires Holds(s, full) && s.baseIndex <= from && upto <= |full|
    ensures Batch(s, from, upto) == Numbered(full, from, upto)
    decreases upto
  {
    if upto > from {
      hide Batch;
      BatchIsNumbered(s, full, from, upto - 1);
      C.BatchLast(s, full, from, upto);
      assert Numbered(full, from, upto - 1) + [] == Numbered(full, from, upto - 1);
    }
  }

  lemma CalledKeeps(s: State, e: Event)
    ensures G.Keeps(s, Called(s, e))
  {
    hide G.Keeps, Tick, Step, Propose;
    match e
    case Ticks(_) => G.TickKeeps(s);
    case Receives(p) => G.StepKeeps(s, p.from, p.msg);
    case Proposes(_, command) => G.ProposeKeeps(s, command);
    case Compacts(_) => G.Untouched(s, s); assert G.Steady(s, s);
    case Restarts(_, _) => G.Untouched(s, s); assert G.Steady(s, s);
    case Dies(_, _) => G.Untouched(s, s); assert G.Steady(s, s);
  }

  /** A stretch of a log is a stretch of any log that shares it. */
  lemma StretchOf(boot: Replicated, full: seq<Entry>, longer: seq<Entry>, r: Ready)
    requires Stretch(boot, full, r) && r.appliedUpto <= |longer| && longer[..r.appliedUpto] == full[..r.appliedUpto]
    ensures Stretch(boot, longer, r)
  {
    NumberedPrefix(full, longer, r.appliedFrom, r.appliedUpto);
    assert longer[..r.appliedFrom] == longer[..r.appliedUpto][..r.appliedFrom];
    assert full[..r.appliedFrom] == full[..r.appliedUpto][..r.appliedFrom];
  }

  lemma {:induction false} NumberedPrefix(full: seq<Entry>, longer: seq<Entry>, from: nat, upto: nat)
    requires upto <= |full| && upto <= |longer| && longer[..upto] == full[..upto]
    ensures Numbered(full, from, upto) == Numbered(longer, from, upto)
    decreases upto
  {
    if upto > from {
      assert longer[..upto][..upto - 1] == longer[..upto - 1] && full[..upto][..upto - 1] == full[..upto - 1];
      assert longer[..upto][upto - 1] == longer[upto - 1] && full[..upto][upto - 1] == full[upto - 1];
      NumberedPrefix(full, longer, from, upto - 1);
    }
  }

  lemma Unfold(boot: Replicated, g: P.Global, n: NodeId, s: State, sm: Replicated)
    requires NodeOk(boot, g, n, s, sm)
    ensures n in g.core && Holds(s, g.core[n].log) && AppliedOk(boot, g.core[n].log, s, sm)
    ensures s.lastApplied <= s.commitIndex
  {
  }

  /** The committed part of a member's full log. */
  ghost function CommittedLog(g: P.Global, n: NodeId, s: State): seq<Entry>
    requires n in g.core && s.commitIndex <= |g.core[n].log|
  {
    g.core[n].log[..s.commitIndex]
  }

  /** Where a hand-out starts, and that it is the snapshot base when it restores. */
  lemma HandOutStart(boot: Replicated, c: Cluster, g: P.Global, e: Event)
    requires Agrees(boot, c, g) && Drains(e) && Actor(e) in c.member && (e.Receives? ==> e.packet in c.net)
    ensures var s := c.member[Actor(e)].raft;
            var r := Called(s, e);
            && s.commitIndex <= r.commitIndex && r.lastApplied <= r.commitIndex && r.baseIndex <= r.lastApplied
            && (r.pendingRestore ==> r.snapshot.Some? && r.lastApplied == r.baseIndex && s.lastApplied < r.lastApplied)
            && (!r.pendingRestore ==> r.lastApplied == s.lastApplied)
  {
    hide P.Inv, MsgOk, Called, P.StepBy, NodeOk, Replay;
    var n := Actor(e);
    var m := c.member[n];
    ActorOfPacket(e);
    CalledKeeps(m.raft, e);
    var h := CalledOk(boot, g, n, m.raft, m.sm, e);
    Unfold(boot, g, n, m.raft, m.sm);
    Unfold(boot, h, n, Called(m.raft, e), m.sm);
  }

  /** One drain: what is handed out is a stretch of the log the member holds committed afterwards. */
  lemma DrainHands(boot: Replicated, c: Cluster, g: P.Global, e: Event, d: Cluster, h: P.Global)
    requires Agrees(boot, c, g) && Drains(e) && Next(boot, c, e, d) && Agrees(boot, d, h)
    ensures var n := Actor(e);
            var s, q := c.member[n].raft, d.member[n].raft;
            var r := TakeReady(Called(s, e)).0;
            && n in h.core && q.commitIndex <= |h.core[n].log| && s.commitIndex <= q.commitIndex
            && Stretch(boot, CommittedLog(h, n, q), r) && q.lastApplied == r.appliedUpto
            && (if r.restore.Some? then s.lastApplied < r.appliedFrom else s.lastApplied == r.appliedFrom)
  {
    hide P.Inv, MsgOk, Called, P.StepBy, NodeOk, Replay, NetOk, Actor, Numbered, Batch, L.Valid;
    HandOutStart(boot, c, g, e);
    var n := Actor(e);
    var s := Called(c.member[n].raft, e);
    var q := d.member[n].raft;
    DrainedState(boot, c, e, d);
    Unfold(boot, h, n, q, d.member[n].sm);
    var log := h.core[n].log;
    BatchIsNumbered(s, log, s.lastApplied, s.commitIndex);
    assert Stretch(boot, log, TakeReady(s).0);
    StretchOf(boot, log, CommittedLog(h, n, q), TakeReady(s).0);
  }

  lemma DrainedState(boot: Replicated, c: Cluster, e: Event, d: Cluster)
    requires Drains(e) && Next(boot, c, e, d)
    ensures Actor(e) in d.member && d.member[Actor(e)].raft == TakeReady(Called(c.member[Actor(e)].raft, e)).1
  {
    hide Called;
  }

  /** A step of `n` that hands nothing out, or a step of somebody else. */
  lemma NothingHanded(boot: Replicated, c: Cluster, e: Event, d: Cluster, n: NodeId)
    requires Next(boot, c, e, d) && n in c.member && (Actor(e) != n || e.Compacts?)
    ensures n in d.member && d.member[n].raft.commitIndex == c.member[n].raft.commitIndex
            && d.member[n].raft.lastApplied == c.member[n].raft.lastApplied
  {
    hide Called;
  }

  // ---- over a run -------------------------------------------------------

  /** Everything `n` handed out from moment `i` to moment `j`, as a chain over its committed log at `j`. */
  ghost predicate InOrder(boot: Replicated, b: seq<Cluster>, ev: seq<Event>, hs: seq<P.Global>, i: nat, j: nat,
                          n: NodeId)
    requires |b| == |ev| + 1 == |hs| && i <= j < |b| && forall k :: 0 <= k < |b| ==> n in b[k].member
  {
    var q := b[j].member[n].raft;
    && n in hs[j].core && q.commitIndex <= |hs[j].core[n].log|
    && (var full, start, rs := CommittedLog(hs[j], n, q), b[i].member[n].raft.lastApplied,
        HandedOut(b[i..j + 1], ev[i..j], n);
        Handed(boot, full, start, rs) && EndBefore(start, rs, |rs|) == q.lastApplied)
  }

  lemma HandedLonger(boot: Replicated, full: seq<Entry>, longer: seq<Entry>, start: nat, rs: seq<Ready>)
    requires Handed(boot, full, start, rs) && full <= longer
    ensures Handed(boot, longer, start, rs)
  {
    hide Replay, Chained, Numbered;
    forall k | 0 <= k < |rs| ensures Stretch(boot, longer, rs[k]) {
      assert longer[..rs[k].appliedUpto] == full[..rs[k].appliedUpto];
      StretchOf(boot, full, longer, rs[k]);
    }
  }

  lemma HandedMore(boot: Replicated, full: seq<Entry>, start: nat, rs: seq<Ready>, r: Ready)
    requires Handed(boot, full, start, rs) && Stretch(boot, full, r)
    requires var end := EndBefore(start, rs, |rs|); if r.restore.Some? then end < r.appliedFrom
             else end == r.appliedFrom
    ensures Handed(boot, full, start, rs + [r]) && EndBefore(start, rs + [r], |rs| + 1) == r.appliedUpto
  {
    hide Stretch;
    var all := rs + [r];
    forall k | 0 <= k < |all|
      ensures if all[k].restore.Some? then EndBefore(start, all, k) < all[k].appliedFrom
              else EndBefore(start, all, k) == all[k].appliedFrom
    {
      assert EndBefore(start, all, k) == EndBefore(start, rs, k);
      if k < |rs| { assert all[k] == rs[k]; }
    }
  }

  /** The committed log of a member only grows. */
  lemma CommittedGrows(boot: Replicated, b: seq<Cluster>, hs: seq<P.Global>, j: nat, n: NodeId)
    requires |hs| == |b| && IsHistory(boot, b, hs) && j + 1 < |b| && n in b[j].member && n in b[j + 1].member
    requires b[j].member[n].raft.commitIndex <= b[j + 1].member[n].raft.commitIndex
    ensures n in hs[j].core && n in hs[j + 1].core
    ensures b[j].member[n].raft.commitIndex <= |hs[j].core[n].log|
    ensures b[j + 1].member[n].raft.commitIndex <= |hs[j + 1].core[n].log|
    ensures CommittedLog(hs[j], n, b[j].member[n].raft) <= CommittedLog(hs[j + 1], n, b[j + 1].member[n].raft)
  {
    hide IsHistory, F.At;
    F.MomentAt(boot, b, hs, j, j + 1, n);
    F.MomentAt(boot, b, hs, j + 1, j + 1, n);
    F.FullLog(boot, hs[j + 1], n, b[j].member[n], hs[j]);
    F.FullLog(boot, hs[j + 1], n, b[j + 1].member[n], hs[j + 1]);
    F.PrefixesAgree(boot, hs[j + 1], n, b[j].member[n], hs[j], n, b[j + 1].member[n], hs[j + 1],
                    b[j].member[n].raft.commitIndex);
  }

  lemma {:induction false} HandedInOrder(boot: Replicated, b: seq<Cluster>, ev: seq<Event>, hs: seq<P.Global>,
                                         i: nat, j: nat, n: NodeId)
    requires Run(boot, b, ev) && |hs| == |b| && IsHistory(boot, b, hs) && i <= j < |b|
    requires forall k :: 0 <= k < |b| ==> n in b[k].member
    requires forall k :: i <= k < j ==> !(StartsOver(ev[k]) && Actor(ev[k]) == n)
    ensures InOrder(boot, b, ev, hs, i, j, n)
    decreases j
  {
    hide Run, IsHistory, InOrder;
    RunLength(boot, b, ev);
    if i == j {
      NothingYet(boot, b, ev, hs, j, n);
    } else {
      HandedInOrder(boot, b, ev, hs, i, j - 1, n);
      OneMoreEvent(boot, b, ev, hs, i, j - 1, n);
    }
  }

  lemma RunLength(boot: Replicated, b: seq<Cluster>, ev: seq<Event>)
    requires Run(boot, b, ev)
    ensures |b| == |ev| + 1
  {
  }

  lemma NothingYet(boot: Replicated, b: seq<Cluster>, ev: seq<Event>, hs: seq<P.Global>, j: nat, n: NodeId)
    requires |b| == |ev| + 1 == |hs| && IsHistory(boot, b, hs) && j < |b|
    requires forall k :: 0 <= k < |b| ==> n in b[k].member
    ensures InOrder(boot, b, ev, hs, j, j, n)
  {
    hide NodeOk, P.Inv, Later, NetOk, Replay;
    assert Agrees(boot, b[j], hs[j]);
    Unfold(boot, hs[j], n, b[j].member[n].raft, b[j].member[n].sm);
    assert HandedOut(b[j..j + 1], ev[j..j], n) == [];
  }

  lemma Cut<T>(s: seq<T>, i: nat, j: nat)
    requires i <= j < |s|
    ensures s[i..j + 1][..j - i] == s[i..j] && s[i..j + 1][j - i] == s[j]
  {
  }

  lemma OneMoreEvent(boot: Replicated, b: seq<Cluster>, ev: seq<Event>, hs: seq<P.Global>, i: nat, j: nat, n: NodeId)
    requires Run(boot, b, ev) && |hs| == |b| && IsHistory(boot, b, hs) && i <= j && j + 1 < |b|
    requires forall k :: 0 <= k < |b| ==> n in b[k].member
    requires !(StartsOver(ev[j]) && Actor(ev[j]) == n) && InOrder(boot, b, ev, hs, i, j, n)
    ensures InOrder(boot, b, ev, hs, i, j + 1, n)
  {
    hide Handed, Next, Start, Agrees, Later, Called, Actor, Stretch;
    var c, d := b[j].member[n].raft, b[j + 1].member[n].raft;
    assert Agrees(boot, b[j], hs[j]) && Agrees(boot, b[j + 1], hs[j + 1]);
    assert Next(boot, b[j], ev[j], b[j + 1]);
    var start, rs := b[i].member[n].raft.lastApplied, HandedOut(b[i..j + 1], ev[i..j], n);
    var bs, es := b[i..j + 2], ev[i..j + 1];
    Cut(b, i, j + 1);
    Cut(ev, i, j);
    assert bs[|es| - 1] == b[j];
    if Actor(ev[j]) == n && Drains(ev[j]) {
      DrainHands(boot, b[j], hs[j], ev[j], b[j + 1], hs[j + 1]);
      CommittedGrows(boot, b, hs, j, n);
      var r := TakeReady(Called(c, ev[j])).0;
      var full := CommittedLog(hs[j + 1], n, d);
      HandedLonger(boot, CommittedLog(hs[j], n, c), full, start, rs);
      HandedMore(boot, full, start, rs, r);
    } else {
      NothingHanded(boot, b[j], ev[j], b[j + 1], n);
      CommittedGrows(boot, b, hs, j, n);
      HandedLonger(boot, CommittedLog(hs[j], n, c), CommittedLog(hs[j + 1], n, d), start, rs);
    }
  }

  /**
   * In every run, between any two moments with no restart of `n` in between: the
   * batches it hands out chain without gap or repeat over one log, and however the
   * drains that carry them interleave, its state machine is always the fold of that
   * log up to its watermark.
   */
  lemma DrainsMayInterleave(boot: Replicated, b: seq<Cluster>, ev: seq<Event>, i: nat, j: nat, n: NodeId,
                            turns: seq<nat>)
    returns (full: seq<Entry>)
    requires Run(boot, b, ev) && i <= j < |b|
    requires forall k :: 0 <= k < |b| ==> n in b[k].member
    requires forall k :: i <= k < j ==> !(StartsOver(ev[k]) && Actor(ev[k]) == n)
    requires forall k :: 0 <= k < |turns| ==> turns[k] < |HandedOut(b[i..j + 1], ev[i..j], n)|
    ensures var rs := HandedOut(b[i..j + 1], ev[i..j], n);
            var x := Applied(b[i].member[n].raft.lastApplied, b[i].member[n].sm);
            && Handed(boot, full, x.watermark, rs)
            && EndBefore(x.watermark, rs, |rs|) == b[j].member[n].raft.lastApplied
            && Folded(boot, full, Interleaved(x, rs, turns))
            && Folded(boot, full, Applied(b[j].member[n].raft.lastApplied, b[j].member[n].sm))
  {
    hide Run, IsHistory, F.At, Handed, Interleaved;
    RunLength(boot, b, ev);
    var hs := Histories(boot, b, ev);
    HandedInOrder(boot, b, ev, hs, i, j, n);
    full := CommittedLog(hs[j], n, b[j].member[n].raft);
    var x := Applied(b[i].member[n].raft.lastApplied, b[i].member[n].sm);
    EndsAscend(boot, full, x.watermark, HandedOut(b[i..j + 1], ev[i..j], n), 0, |HandedOut(b[i..j + 1], ev[i..j], n)|);
    StartIsFold(boot, b, hs, i, j, n, x.watermark);
    StartIsFold(boot, b, hs, j, j, n, b[j].member[n].raft.lastApplied);
    EveryInterleaving(boot, full, x.watermark, HandedOut(b[i..j + 1], ev[i..j], n), x, turns);
  }

  lemma StartIsFold(boot: Replicated, b: seq<Cluster>, hs: seq<P.Global>, i: nat, j: nat, n: NodeId, w: nat)
    requires |hs| == |b| && IsHistory(boot, b, hs) && i <= j < |b| && n in b[i].member && n in b[j].member
    requires w == b[i].member[n].raft.lastApplied && w <= b[j].member[n].raft.lastApplied
    ensures n in hs[j].core && b[j].member[n].raft.commitIndex <= |hs[j].core[n].log|
    ensures Folded(boot, CommittedLog(hs[j], n, b[j].member[n].raft), Applied(w, b[i].member[n].sm))
  {
    hide IsHistory, F.At, Replay;
    F.MomentAt(boot, b, hs, i, j, n);
    F.MomentAt(boot, b, hs, j, j, n);
    F.FullLog(boot, hs[j], n, b[i].member[n], hs[i]);
    F.FullLog(boot, hs[j], n, b[j].member[n], hs[j]);
    F.PrefixesAgree(boot, hs[j], n, b[i].member[n], hs[i], n, b[j].member[n], hs[j], w);
    var full := CommittedLog(hs[j], n, b[j].member[n].raft);
    assert full[..w] == hs[j].core[n].log[..w];
  }

  // ---- a proposal that returns true -------------------------------------

  /** What the proposer `n` reads at the moments `at` of a run, in order, all after its proposal at `i`. */
  ghost predicate ReadsAt(b: seq<Cluster>, n: NodeId, i: nat, at: seq<nat>, readings: seq<Reading>) {
    && |at| == |readings|
    && (forall k :: 0 <= k < |at| ==>
          i < at[k] < |b| && n in b[at[k]].member
          && readings[k] == ReadingOf(b[at[k]].member[n].raft, readings[k].available))
  }

  /**
   * A proposal that returns true is permanent: if the wait for the commit succeeds on
   * what the proposer reads over a run, then whoever has committed that far, every
   * leader of a later term, and every leader of the same term from then on, holds
   * exactly that command at that index, live or under its snapshot base.
   */
  lemma ReturnedTrueIsPermanent(boot: Replicated, b: seq<Cluster>, ev: seq<Event>, i: nat, at: seq<nat>,
                                readings: seq<Reading>, index: nat, e: Entry, k: nat, m: NodeId)
    requires Run(boot, b, ev) && i + 1 < |b| && ev[i].Proposes? && ev[i].n in b[i].member
    requires var s := b[i].member[ev[i].n].raft;
             s.role == Leader && index == LastIndex(s) + 1 && e == Entry(s.currentTerm, index, Some(ev[i].command))
    requires ReadsAt(b, ev[i].n, i, at, readings) && Awaited(readings, index, e.term)
    requires k < |b| && m in b[k].member
    requires var r := b[k].member[m].raft;
             || r.commitIndex >= index
             || (r.role == Leader && r.currentTerm > e.term)
             || (r.role == Leader && r.currentTerm == e.term && forall j :: 0 <= j < |at| ==> at[j] <= k)
    ensures var r := b[k].member[m].raft;
            index <= LastIndex(r) && (r.baseIndex < index ==> L.EntryAt(r, index) == Some(e))
  {
    var j :| 0 <= j < |readings| && Confirms(readings[j], index, e.term);
    hide Run, L.EntryAt;
    F.AcknowledgedIsPermanent(boot, b, ev, i, at[j], index, e, k, m);
  }
}
