/**
 * The replay laws of the state machine, which make overlapping replay harmless,
 * and from them exactly when a drain may fold the log into a snapshot.
 */
module RaftReplay {
  import opened Model
  import opened RaftSpec
  import opened RaftDriver

  // ---- overlapping replay -----------------------------------------------

  /** The last assignment `log` makes to `shard`, and the last plan it sets. */
  function LastAssigned(log: seq<Entry>, shard: ShardId): Option<ShardAssignment> {
    if log == [] then None
    else match log[|log| - 1].command
      case Some(AssignShard(a)) => if a.shardId == shard then Some(a) else LastAssigned(log[..|log| - 1], shard)
      case _ => LastAssigned(log[..|log| - 1], shard)
  }

  function LastPlanned(log: seq<Entry>): Option<ScalePlan> {
    if log == [] then None
    else match log[|log| - 1].command
      case Some(SetScalePlan(p)) => Some(p)
      case _ => LastPlanned(log[..|log| - 1])
  }

  function At(placement: map<ShardId, ShardAssignment>, shard: ShardId): Option<ShardAssignment> {
    if shard in placement then Some(placement[shard]) else None
  }

  function Or<T>(a: Option<T>, b: Option<T>): Option<T> { if a.Some? then a else b }

  /** A replay leaves at each shard the last assignment made to it, and the last plan set. */
  lemma {:induction false} ReplayKeepsLast(st: Replicated, log: seq<Entry>, shard: ShardId)
    ensures At(Replay(st, log).placement, shard) == Or(LastAssigned(log, shard), At(st.placement, shard))
    ensures Some(Replay(st, log).plan) == Or(LastPlanned(log), Some(st.plan))
  {
    if log != [] {
      ReplayKeepsLast(st, log[..|log| - 1], shard);
    }
  }

  lemma SameMap(a: map<ShardId, ShardAssignment>, b: map<ShardId, ShardAssignment>)
    requires forall k :: At(a, k) == At(b, k)
    ensures a == b
  {
    forall k ensures k in a <==> k in b {
      assert At(a, k) == At(b, k);
    }
    forall k | k in a ensures a[k] == b[k] {
      assert At(a, k) == At(b, k);
    }
  }

  /** The placement a replay produces depends on the starting placement only, and the plan on the starting plan. */
  lemma ReplayApart(x: Replicated, y: Replicated, log: seq<Entry>)
    ensures x.placement == y.placement ==> Replay(x, log).placement == Replay(y, log).placement
    ensures x.plan == y.plan ==> Replay(x, log).plan == Replay(y, log).plan
  {
    ReplayKeepsLast(x, log, 0);
    ReplayKeepsLast(y, log, 0);
    if x.placement == y.placement {
      forall k ensures At(Replay(x, log).placement, k) == At(Replay(y, log).placement, k) {
        ReplayKeepsLast(x, log, k);
        ReplayKeepsLast(y, log, k);
      }
      SameMap(Replay(x, log).placement, Replay(y, log).placement);
    }
  }

  /** Replaying the same entries once more changes nothing. */
  lemma ReplayTwice(st: Replicated, log: seq<Entry>)
    ensures Replay(Replay(st, log), log) == Replay(st, log)
  {
    var once := Replay(st, log);
    forall k ensures At(Replay(once, log).placement, k) == At(once.placement, k) {
      ReplayKeepsLast(once, log, k);
      ReplayKeepsLast(st, log, k);
    }
    SameMap(Replay(once, log).placement, once.placement);
    ReplayKeepsLast(once, log, 0);
    ReplayKeepsLast(st, log, 0);
  }

  /** Overlapping replay: from the state at `j`, replaying from an earlier `i` through `m` gives the state at `m`. */
  lemma Overlap(boot: Replicated, full: seq<Entry>, i: nat, j: nat, m: nat)
    requires i <= j <= m <= |full|
    ensures Replay(Replay(boot, full[..j]), full[i..m]) == Replay(boot, full[..m])
  {
    hide Replay;
    var sj := Replay(boot, full[..j]);
    ReplayFurther(boot, full, i, j);
    ReplayTwice(Replay(boot, full[..i]), full[i..j]);
    assert Replay(sj, full[i..j]) == sj;
    ReplayConcat(sj, full[i..j], full[j..m]);
    assert full[i..j] + full[j..m] == full[i..m];
    ReplayFurther(boot, full, j, m);
  }

  /** A snapshot whose placement was read at one moment and whose plan at another. */
  function Torn(boot: Replicated, full: seq<Entry>, placementAt: nat, planAt: nat): Replicated
    requires placementAt <= |full| && planAt <= |full|
  {
    Replicated(Replay(boot, full[..placementAt]).placement, Replay(boot, full[..planAt]).plan)
  }

  /**
   * A snapshot compacted at `i` may reflect newer and even different moments for
   * placement and plan: once replay from `i` has passed the newest of them, the
   * state is the one an uninterrupted member has.
   */
  lemma TornSnapshotRecovers(boot: Replicated, full: seq<Entry>, i: nat, placementAt: nat, planAt: nat, m: nat)
    requires i <= placementAt <= m <= |full| && i <= planAt <= m
    ensures Replay(Torn(boot, full, placementAt, planAt), full[i..m]) == Replay(boot, full[..m])
  {
    hide Replay;
    var torn := Torn(boot, full, placementAt, planAt);
    Overlap(boot, full, i, placementAt, m);
    Overlap(boot, full, i, planAt, m);
    ReplayApart(torn, Replay(boot, full[..placementAt]), full[i..m]);
    ReplayApart(torn, Replay(boot, full[..planAt]), full[i..m]);
  }

  // ---- compacting from concurrent drains --------------------------------

  /** A snapshot `sm` of index `w`, filed under index `i`, leads to the right state at every index from both on. */
  ghost predicate Recovers(boot: Replicated, full: seq<Entry>, i: nat, w: nat, sm: Replicated)
    requires i <= |full|
  {
    forall m :: Max(i, w) <= m <= |full| ==> Replay(sm, full[i..m]) == Replay(boot, full[..m])
  }

  /** The state machine already holds the last assignments and the last plan of what it skipped. */
  ghost predicate HoldsAlready(sm: Replicated, skipped: seq<Entry>) {
    && (forall shard :: LastAssigned(skipped, shard).Some? ==> At(sm.placement, shard) == LastAssigned(skipped, shard))
    && (LastPlanned(skipped).Some? ==> LastPlanned(skipped) == Some(sm.plan))
  }

  /** Replaying changes nothing exactly if everything it would leave is there already. */
  lemma ReplayIdle(sm: Replicated, log: seq<Entry>)
    ensures Replay(sm, log) == sm <==> HoldsAlready(sm, log)
  {
    var r := Replay(sm, log);
    ReplayKeepsLast(sm, log, 0);
    if HoldsAlready(sm, log) {
      forall k ensures At(r.placement, k) == At(sm.placement, k) {
        ReplayKeepsLast(sm, log, k);
      }
      SameMap(r.placement, sm.placement);
    }
    if r == sm {
      forall k | LastAssigned(log, k).Some? ensures At(sm.placement, k) == LastAssigned(log, k) {
        ReplayKeepsLast(sm, log, k);
      }
    }
  }

  /** The exact condition, for a state machine that is the fold up to its watermark. */
  lemma RecoversExactly(boot: Replicated, full: seq<Entry>, y: Applied, i: nat)
    requires Folded(boot, full, y) && i <= |full|
    ensures Recovers(boot, full, i, y.watermark, y.sm) <==>
            y.watermark >= i || HoldsAlready(y.sm, full[y.watermark..i])
  {
    hide Replay, HoldsAlready;
    var w := y.watermark;
    if w >= i {
      forall m | Max(i, w) <= m <= |full| ensures Replay(y.sm, full[i..m]) == Replay(boot, full[..m]) {
        Overlap(boot, full, i, w, m);
      }
    } else {
      ReplayFurther(boot, full, w, i);
      ReplayIdle(y.sm, full[w..i]);
      assert full[i..i] == [];
      EmptyReplay(y.sm);
      if HoldsAlready(y.sm, full[w..i]) {
        forall m | Max(i, w) <= m <= |full| ensures Replay(y.sm, full[i..m]) == Replay(boot, full[..m]) {
          ReplayFurther(boot, full, i, m);
        }
      }
    }
  }

  /**
   * When a drain may compact. For every chain of batches, every interleaving and
   * every drain that has been through: compacting at the end of its batch, with the
   * state machine as it is by then, recovers every later state if and only if the
   * watermark has reached that end, or the state machine already holds the last
   * assignments and plan of what it has yet to apply. The watermark can fall short
   * only for a plain batch that is empty: the one kind that skips the wait.
   */
  lemma CompactionRecovers(boot: Replicated, full: seq<Entry>, start: nat, rs: seq<Ready>, x: Applied, turns: seq<nat>,
                           k: nat)
    requires Handed(boot, full, start, rs) && x == Applied(start, Replay(boot, full[..start]))
    requires forall i :: 0 <= i < |turns| ==> turns[i] < |rs|
    requires k < |rs| && Through(x, rs, turns, k)
    ensures var y, i := Interleaved(x, rs, turns), rs[k].appliedUpto;
            && i <= |full| && Folded(boot, full, y)
            && (Recovers(boot, full, i, y.watermark, y.sm) <==>
                y.watermark >= i || HoldsAlready(y.sm, full[y.watermark..i]))
            && (y.watermark < i ==> rs[k].restore.None? && rs[k].appliedUpto == rs[k].appliedFrom)
  {
    hide Recovers, HoldsAlready, Interleaved, Through, Replay, Numbered;
    assert Stretch(boot, full, rs[k]);
    EveryInterleaving(boot, full, start, rs, x, turns);
    RecoversExactly(boot, full, Interleaved(x, rs, turns), rs[k].appliedUpto);
    if rs[k].restore.Some? || rs[k].appliedUpto > rs[k].appliedFrom {
      ThroughReaches(x, rs, turns, k);
    }
  }

  /**
   * Nothing makes a drain with an empty batch wait before it compacts. Take any log,
   * however long, applied up to `start`, whose rest would change the state machine: with
   * the batch of that rest still to be applied, the drain of the empty batch after it
   * goes through, and compacting at its end loses the rest.
   */
  lemma EmptyBatchOvertakes(boot: Replicated, full: seq<Entry>, start: nat)
    requires start <= |full| && !HoldsAlready(Replay(boot, full[..start]), full[start..])
    ensures var rs := [Ready(None, None, start, |full|, [], Numbered(full, start, |full|)),
                       Ready(None, None, |full|, |full|, [], [])];
            var x := Applied(start, Replay(boot, full[..start]));
            && Handed(boot, full, start, rs) && Through(x, rs, [1], 1) && Interleaved(x, rs, [1]) == x
            && !Recovers(boot, full, rs[1].appliedUpto, x.watermark, x.sm)
  {
    hide HoldsAlready, Replay, Recovers;
    var rs := [Ready(None, None, start, |full|, [], Numbered(full, start, |full|)),
               Ready(None, None, |full|, |full|, [], [])];
    var x := Applied(start, Replay(boot, full[..start]));
    assert Numbered(full, |full|, |full|) == [];
    assert [1][..0] == [];
    NoTurn(x, rs);
    assert WentThrough(x, rs, [1], 1, 0);
    assert full[start..|full|] == full[start..];
    if start == |full| {
      EmptyReplay(x.sm);
      ReplayIdle(x.sm, full[start..]);
    }
    RecoversExactly(boot, full, x, |full|);
  }
}
