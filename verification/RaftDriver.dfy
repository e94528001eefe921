/**
 * The driver's apply section: batches handed out by the engine in order reach the
 * state machine from concurrent drains in any order, with snapshot restores among
 * them, and a watermark decides what is applied when. Also the wait for a commit.
 */
module RaftDriver {
  import opened Model
  import opened RaftSpec
  import C = RaftCommit

  /** The state machine and the index it reflects. */
  datatype Applied = Applied(watermark: nat, sm: Replicated)

  /** The part of a batch above `w`. */
  function Beyond(batch: seq<(nat, Command)>, w: nat): seq<(nat, Command)> {
    if batch == [] then []
    else Beyond(batch[..|batch| - 1], w) + if batch[|batch| - 1].0 > w then [batch[|batch| - 1]] else []
  }

  /** A plain batch that would leave a gap has to wait. */
  predicate MustWait(x: Applied, r: Ready) {
    r.restore.None? && r.appliedUpto > r.appliedFrom && x.watermark < r.appliedFrom
  }

  function ApplyReady(x: Applied, r: Ready): Applied {
    match r.restore
    case Some(data) =>
      if r.appliedUpto >= x.watermark then Applied(r.appliedUpto, C.ApplyAll(data, r.committed)) else x
    case None =>
      if r.appliedUpto <= r.appliedFrom || MustWait(x, r) then x
      else Applied(Max(x.watermark, r.appliedUpto), C.ApplyAll(x.sm, Beyond(r.committed, x.watermark)))
  }

  datatype Outcome = Done | Waits | Unavailable

  class Driver {
    var available: bool
    var watermark: nat
    var placement: map<ShardId, ShardAssignment>
    var plan: ScalePlan

    ghost function State(): Applied
      reads this
    {
      Applied(watermark, Replicated(placement, plan))
    }

    constructor (boot: Replicated, restored: Persisted)
      ensures available && State() == Applied(restored.baseIndex, if restored.snapshot.Some?
                                              then restored.snapshot.value else boot)
    {
      var sm := if restored.snapshot.Some? then restored.snapshot.value else boot;
      available, watermark, placement, plan := true, restored.baseIndex, sm.placement, sm.plan;
    }

    method FailClosed()
      modifies this`available
      ensures !available
    {
      available := false;
    }

    method ApplyCommand(command: Command)
      modifies this`placement, this`plan
      ensures Replicated(placement, plan) == Apply(old(Replicated(placement, plan)), command)
    {
      match command
      case AssignShard(a) => placement := placement[a.shardId := a];
      case SetScalePlan(p) => plan := p;
      case ForgetNode(_) =>
    }

    method RestoreStateMachine(data: Replicated)
      modifies this`placement, this`plan
      ensures Replicated(placement, plan) == data
    {
      placement := data.placement;
      plan := data.plan;
    }

    /** Apply the commands of `batch` whose index is above `w`, in order. */
    method ApplyBatch(batch: seq<(nat, Command)>, w: nat)
      modifies this`placement, this`plan
      ensures Replicated(placement, plan) == C.ApplyAll(old(Replicated(placement, plan)), Beyond(batch, w))
    {
      for i := 0 to |batch|
        invariant Replicated(placement, plan) == C.ApplyAll(old(Replicated(placement, plan)), Beyond(batch[..i], w))
      {
        assert batch[..i + 1][..i] == batch[..i];
        ghost var kept := Beyond(batch[..i], w);
        if batch[i].0 > w {
          assert (kept + [batch[i]])[..|kept|] == kept;
          ApplyCommand(batch[i].1);
        } else {
          assert kept + [] == kept;
        }
      }
      assert batch[..|batch|] == batch;
    }

    /** The restore of `r` would be carried out, but its payload does not parse. */
    ghost predicate Unreadable(r: Ready, readable: bool)
      reads this
    {
      r.restore.Some? && r.appliedUpto >= watermark && !readable
    }

    /**
     * One pass of a drain through the apply section; `Waits` means it will be back,
     * and then looks at availability again. A payload that does not parse is fatal.
     */
    method TryApply(r: Ready, readable: bool) returns (outcome: Outcome)
      modifies this
      ensures outcome.Unavailable? <==> !available
      ensures available <==> old(available) && !old(Unreadable(r, readable))
      ensures available ==> (outcome.Waits? <==> MustWait(old(State()), r)) && State() == ApplyReady(old(State()), r)
      ensures !available ==> State() == old(State())
    {
      if !available {
        return Unavailable;
      }
      if r.restore.Some? || r.appliedUpto > r.appliedFrom {
        if r.restore.Some? {
          if r.appliedUpto >= watermark {
            if !readable {
              FailClosed();
              return Unavailable;
            }
            RestoreStateMachine(r.restore.value);
            ApplyWhole(r.committed);
            watermark := r.appliedUpto;
          }
        } else {
          if watermark < r.appliedFrom {
            return Waits;
          }
          ApplyBatch(r.committed, watermark);
          if r.appliedUpto > watermark {
            watermark := r.appliedUpto;
          }
        }
      }
      return Done;
    }

    method ApplyWhole(batch: seq<(nat, Command)>)
      modifies this`placement, this`plan
      ensures Replicated(placement, plan) == C.ApplyAll(old(Replicated(placement, plan)), batch)
    {
      for i := 0 to |batch|
        invariant Replicated(placement, plan) == C.ApplyAll(old(Replicated(placement, plan)), batch[..i])
      {
        assert batch[..i + 1][..i] == batch[..i];
        ApplyCommand(batch[i].1);
      }
      assert batch[..|batch|] == batch;
    }
  }

  // ---- what the engine hands out ----------------------------------------

  /** The commands at indexes `from+1..upto` of a full log, with their indexes. */
  function Numbered(full: seq<Entry>, from: nat, upto: nat): seq<(nat, Command)>
    requires upto <= |full|
    decreases upto
  {
    if upto <= from then []
    else Numbered(full, from, upto - 1) +
         match full[upto - 1].command case Some(c) => [(upto, c)] case None => []
  }

  /** `r` hands out a stretch of `full`, after the state at its start if it restores. */
  ghost predicate Stretch(boot: Replicated, full: seq<Entry>, r: Ready) {
    && r.appliedFrom <= r.appliedUpto <= |full|
    && r.committed == Numbered(full, r.appliedFrom, r.appliedUpto)
    && (r.restore.Some? ==> r.restore.value == Replay(boot, full[..r.appliedFrom]))
  }

  /** Where the batch before `k` ended. */
  function EndBefore(start: nat, rs: seq<Ready>, k: nat): nat
    requires k <= |rs|
  {
    if k == 0 then start else rs[k - 1].appliedUpto
  }

  /** Batches chain without gap or repeat; a restore starts strictly beyond everything handed out before it. */
  ghost predicate Chained(start: nat, rs: seq<Ready>) {
    forall k :: 0 <= k < |rs| ==>
      if rs[k].restore.Some? then EndBefore(start, rs, k) < rs[k].appliedFrom
      else EndBefore(start, rs, k) == rs[k].appliedFrom
  }

  ghost predicate Handed(boot: Replicated, full: seq<Entry>, start: nat, rs: seq<Ready>) {
    start <= |full| && Chained(start, rs) && forall k :: 0 <= k < |rs| ==> Stretch(boot, full, rs[k])
  }

  // ---- every interleaving -----------------------------------------------

  /** The state machine is the fold of the log up to the watermark. */
  ghost predicate Folded(boot: Replicated, full: seq<Entry>, x: Applied) {
    x.watermark <= |full| && x.sm == Replay(boot, full[..x.watermark])
  }

  lemma ApplyLast(st: Replicated, batch: seq<(nat, Command)>, w: nat, last: (nat, Command))
    ensures C.ApplyAll(st, Beyond(batch + [last], w)) ==
            if last.0 > w then Apply(C.ApplyAll(st, Beyond(batch, w)), last.1) else C.ApplyAll(st, Beyond(batch, w))
  {
    assert (batch + [last])[..|batch|] == batch;
    if last.0 > w {
      assert (Beyond(batch, w) + [last])[..|Beyond(batch, w)|] == Beyond(batch, w);
    } else {
      assert Beyond(batch, w) + [] == Beyond(batch, w);
    }
  }

  /** The stretch of `full` above `w` and `from`. */
  function Rest(full: seq<Entry>, from: nat, upto: nat, w: nat): seq<Entry>
    requires upto <= |full|
  {
    if Max(from, w) <= upto then full[Max(from, w)..upto] else []
  }

  /** Applying what is left of a batch is replaying what is left of its stretch. */
  lemma {:induction false} BeyondReplays(full: seq<Entry>, from: nat, upto: nat, w: nat, st: Replicated)
    requires from <= upto <= |full|
    ensures C.ApplyAll(st, Beyond(Numbered(full, from, upto), w)) == Replay(st, Rest(full, from, upto, w))
    decreases upto
  {
    hide C.ApplyAll, Beyond, Replay, Apply;
    if upto == from {
      assert Rest(full, from, upto, w) == [];
      NothingLeft(st, w);
    } else {
      BeyondReplays(full, from, upto - 1, w, st);
      var b := Numbered(full, from, upto - 1);
      var e := full[upto - 1];
      var m := Max(from, w);
      if e.command.Some? {
        ApplyLast(st, b, w, (upto, e.command.value));
      } else {
        assert b + [] == b;
      }
      if m < upto {
        C.ReplayLast(st, full, m, upto);
      } else {
        assert Rest(full, from, upto, w) == [] == Rest(full, from, upto - 1, w);
      }
    }
  }

  lemma NothingLeft(st: Replicated, w: nat)
    ensures C.ApplyAll(st, Beyond([], w)) == st == Replay(st, [])
  {
  }

  lemma {:induction false} BeyondAll(batch: seq<(nat, Command)>)
    requires forall i :: 0 <= i < |batch| ==> batch[i].0 > 0
    ensures Beyond(batch, 0) == batch
  {
    if batch != [] {
      BeyondAll(batch[..|batch| - 1]);
    }
  }

  lemma {:induction false} NumberedPositive(full: seq<Entry>, from: nat, upto: nat)
    requires upto <= |full|
    ensures forall i :: 0 <= i < |Numbered(full, from, upto)| ==> Numbered(full, from, upto)[i].0 > 0
    decreases upto
  {
    if upto > from {
      NumberedPositive(full, from, upto - 1);
    }
  }

  lemma ReplayFurther(boot: Replicated, full: seq<Entry>, i: nat, j: nat)
    requires i <= j <= |full|
    ensures Replay(Replay(boot, full[..i]), full[i..j]) == Replay(boot, full[..j])
  {
    ReplayConcat(boot, full[..i], full[i..j]);
    assert full[..i] + full[i..j] == full[..j];
  }

  /** Any pass through the apply section keeps the state machine equal to the fold, and never moves it back. */
  lemma ApplyKeepsFold(boot: Replicated, full: seq<Entry>, x: Applied, r: Ready)
    requires Folded(boot, full, x) && Stretch(boot, full, r)
    ensures Folded(boot, full, ApplyReady(x, r)) && x.watermark <= ApplyReady(x, r).watermark
    ensures !MustWait(x, r) && r.appliedUpto > r.appliedFrom ==> ApplyReady(x, r).watermark >= r.appliedUpto
  {
    hide C.ApplyAll, Beyond, Numbered, Replay;
    var from, upto := r.appliedFrom, r.appliedUpto;
    if r.restore.Some? {
      BeyondReplays(full, from, upto, 0, r.restore.value);
      NumberedPositive(full, from, upto);
      BeyondAll(r.committed);
      ReplayFurther(boot, full, from, upto);
    } else if upto > from && x.watermark >= from {
      BeyondReplays(full, from, upto, x.watermark, x.sm);
      if x.watermark <= upto {
        ReplayFurther(boot, full, x.watermark, upto);
      } else {
        EmptyReplay(x.sm);
      }
    }
  }

  lemma EmptyReplay(st: Replicated)
    ensures Replay(st, []) == st
  {
  }

  /** The state after the drains of `turns` pass through the apply section, in that order. */
  function Interleaved(x: Applied, rs: seq<Ready>, turns: seq<nat>): Applied
    requires forall i :: 0 <= i < |turns| ==> turns[i] < |rs|
  {
    if turns == [] then x
    else ApplyReady(Interleaved(x, rs, turns[..|turns| - 1]), rs[turns[|turns| - 1]])
  }

  /**
   * Ordered exactly-once apply: whatever order drains reach the apply section in,
   * however often they retry, and whatever restores are among them, at every moment
   * the placement map and scale plan are the fold of the log up to the watermark.
   */
  lemma {:induction false} EveryInterleaving(boot: Replicated, full: seq<Entry>, start: nat, rs: seq<Ready>, x: Applied,
                                             turns: seq<nat>)
    requires Handed(boot, full, start, rs) && x == Applied(start, Replay(boot, full[..start]))
    requires forall i :: 0 <= i < |turns| ==> turns[i] < |rs|
    ensures Folded(boot, full, Interleaved(x, rs, turns)) && Interleaved(x, rs, turns).watermark >= start
  {
    hide ApplyReady, Stretch, Replay, Chained;
    if turns != [] {
      var k := |turns| - 1;
      EveryInterleaving(boot, full, start, rs, x, turns[..k]);
      ApplyKeepsFold(boot, full, Interleaved(x, rs, turns[..k]), rs[turns[k]]);
    }
  }

  lemma {:induction false} EndsAscend(boot: Replicated, full: seq<Entry>, start: nat, rs: seq<Ready>, j: nat, k: nat)
    requires Handed(boot, full, start, rs) && j <= k <= |rs|
    ensures EndBefore(start, rs, j) <= EndBefore(start, rs, k)
    decreases k
  {
    if j < k {
      EndsAscend(boot, full, start, rs, j, k - 1);
    }
  }

  lemma PassBounds(x: Applied, r: Ready)
    ensures x.watermark <= ApplyReady(x, r).watermark <= Max(x.watermark, r.appliedUpto)
    ensures !MustWait(x, r) && (r.restore.Some? || r.appliedUpto > r.appliedFrom) ==>
              ApplyReady(x, r).watermark >= r.appliedUpto
  {
  }

  /** The watermark never passes the end of what was handed out. */
  lemma {:induction false} NeverAhead(boot: Replicated, full: seq<Entry>, start: nat, rs: seq<Ready>, x: Applied,
                                      turns: seq<nat>)
    requires Handed(boot, full, start, rs) && x.watermark == start
    requires forall i :: 0 <= i < |turns| ==> turns[i] < |rs|
    ensures Interleaved(x, rs, turns).watermark <= EndBefore(start, rs, |rs|)
  {
    hide Handed, ApplyReady;
    if turns == [] {
      EndsAscend(boot, full, start, rs, 0, |rs|);
    } else {
      var k := |turns| - 1;
      NeverAhead(boot, full, start, rs, x, turns[..k]);
      PassBounds(Interleaved(x, rs, turns[..k]), rs[turns[k]]);
      EndsAscend(boot, full, start, rs, turns[k] + 1, |rs|);
    }
  }

  /** Nobody waits forever: once everything handed out before it is reflected, a batch does not wait. */
  lemma NoDeadlock(boot: Replicated, full: seq<Entry>, start: nat, rs: seq<Ready>, x: Applied, k: nat)
    requires Handed(boot, full, start, rs) && k < |rs| && x.watermark >= EndBefore(start, rs, k)
    ensures !MustWait(x, rs[k])
    ensures ApplyReady(x, rs[k]).watermark >= EndBefore(start, rs, k + 1)
  {
  }

  lemma {:induction false} BeyondNone(full: seq<Entry>, from: nat, upto: nat, w: nat)
    requires upto <= |full| && upto <= w
    ensures Beyond(Numbered(full, from, upto), w) == []
    decreases upto
  {
    if upto > from {
      BeyondNone(full, from, upto - 1, w);
      var b := Numbered(full, from, upto - 1);
      match full[upto - 1].command
      case Some(c) => assert (b + [(upto, c)])[..|b|] == b;
      case None => assert b + [] == b;
    }
  }

  /**
   * Once a restore is reflected, everything handed out before it is skipped whole
   * when it gets there, an earlier restore included.
   */
  lemma Overtaken(boot: Replicated, full: seq<Entry>, start: nat, rs: seq<Ready>, x: Applied, j: nat, k: nat)
    requires Handed(boot, full, start, rs) && j < k < |rs| && rs[k].restore.Some? && x.watermark >= rs[k].appliedUpto
    ensures ApplyReady(x, rs[j]) == x && !MustWait(x, rs[j]) && rs[j].appliedUpto < x.watermark
  {
    hide Replay, Numbered, Beyond;
    EndsAscend(boot, full, start, rs, j + 1, k);
    assert Stretch(boot, full, rs[j]) && Stretch(boot, full, rs[k]);
    BeyondNone(full, rs[j].appliedFrom, rs[j].appliedUpto, x.watermark);
  }

  /**
   * The branch that ignores a stale restore is reached: two restores handed out, the
   * later one through first.
   */
  lemma StaleRestoreReached(boot: Replicated, e: Entry, f: Entry)
    ensures var full := [e, f];
            var rs := [Ready(None, Some(Replay(boot, full[..1])), 1, 1, [], []),
                       Ready(None, Some(Replay(boot, full)), 2, 2, [], [])];
            var x := Applied(0, boot);
            var y := Interleaved(x, rs, [1]);
            && Handed(boot, full, 0, rs) && rs[0].restore.Some? && rs[0].appliedUpto < y.watermark
            && Interleaved(x, rs, [1, 0]) == y == Applied(2, Replay(boot, full))
  {
    hide Replay;
    var full := [e, f];
    var rs := [Ready(None, Some(Replay(boot, full[..1])), 1, 1, [], []),
               Ready(None, Some(Replay(boot, full)), 2, 2, [], [])];
    var x := Applied(0, boot);
    assert full[..2] == full && [1, 0][..1] == [1] && [1][..0] == [];
    assert Numbered(full, 1, 1) == [] && Numbered(full, 2, 2) == [];
    NoTurn(x, rs);
    assert Interleaved(x, rs, [1]) == ApplyReady(x, rs[1]);
    assert Interleaved(x, rs, [1, 0]) == ApplyReady(Interleaved(x, rs, [1]), rs[0]);
  }

  /** The watermark never moves back over further turns. */
  lemma {:induction false} TurnsAdvance(rs: seq<Ready>, x: Applied, turns: seq<nat>, i: nat)
    requires forall i :: 0 <= i < |turns| ==> turns[i] < |rs|
    requires i <= |turns|
    ensures Interleaved(x, rs, turns[..i]).watermark <= Interleaved(x, rs, turns).watermark
    decreases |turns|
  {
    hide ApplyReady;
    if i == |turns| {
      assert turns[..i] == turns;
    } else {
      var k := |turns| - 1;
      TurnsAdvance(rs, x, turns[..k], i);
      assert turns[..k][..i] == turns[..i];
      PassBounds(Interleaved(x, rs, turns[..k]), rs[turns[k]]);
    }
  }

  /** Turn `i` is the drain of batch `k`, and it does not wait. */
  ghost predicate WentThrough(x: Applied, rs: seq<Ready>, turns: seq<nat>, k: nat, i: nat)
    requires forall i :: 0 <= i < |turns| ==> turns[i] < |rs|
    requires i < |turns| && k < |rs|
  {
    turns[i] == k && !MustWait(Interleaved(x, rs, turns[..i]), rs[k])
  }

  ghost predicate Through(x: Applied, rs: seq<Ready>, turns: seq<nat>, k: nat)
    requires forall i :: 0 <= i < |turns| ==> turns[i] < |rs|
    requires k < |rs|
  {
    exists i :: 0 <= i < |turns| && WentThrough(x, rs, turns, k, i)
  }

  /** Every drain has been through. */
  ghost predicate AllThrough(x: Applied, rs: seq<Ready>, turns: seq<nat>)
    requires forall i :: 0 <= i < |turns| ==> turns[i] < |rs|
  {
    forall k :: 0 <= k < |rs| ==> Through(x, rs, turns, k)
  }

  lemma {:induction false} Reaches(boot: Replicated, full: seq<Entry>, start: nat, rs: seq<Ready>, x: Applied,
                                   turns: seq<nat>, k: nat)
    requires Handed(boot, full, start, rs) && x.watermark == start && k <= |rs|
    requires forall i :: 0 <= i < |turns| ==> turns[i] < |rs|
    requires AllThrough(x, rs, turns)
    ensures Interleaved(x, rs, turns).watermark >= EndBefore(start, rs, k)
  {
    hide Stretch, ApplyReady, MustWait, Through, Interleaved;
    if k == 0 {
      TurnsAdvance(rs, x, turns, 0);
      NoTurn(x, rs);
      assert turns[..0] == [];
    } else {
      Reaches(boot, full, start, rs, x, turns, k - 1);
      var r := rs[k - 1];
      if r.restore.Some? || r.appliedUpto > r.appliedFrom {
        assert Through(x, rs, turns, k - 1);
        ThroughReaches(x, rs, turns, k - 1);
      }
    }
  }

  lemma NoTurn(x: Applied, rs: seq<Ready>)
    ensures Interleaved(x, rs, []) == x
  {
  }

  lemma ThroughReaches(x: Applied, rs: seq<Ready>, turns: seq<nat>, k: nat)
    requires forall i :: 0 <= i < |turns| ==> turns[i] < |rs|
    requires k < |rs| && Through(x, rs, turns, k) && (rs[k].restore.Some? || rs[k].appliedUpto > rs[k].appliedFrom)
    ensures Interleaved(x, rs, turns).watermark >= rs[k].appliedUpto
  {
    hide ApplyReady, MustWait;
    var i :| 0 <= i < |turns| && WentThrough(x, rs, turns, k, i);
    assert turns[..i + 1][..i] == turns[..i];
    PassBounds(Interleaved(x, rs, turns[..i]), rs[k]);
    TurnsAdvance(rs, x, turns, i + 1);
  }

  /** When every drain has been through, the state machine reflects exactly everything handed out. */
  lemma AllDrained(boot: Replicated, full: seq<Entry>, start: nat, rs: seq<Ready>, x: Applied, turns: seq<nat>)
    requires Handed(boot, full, start, rs) && x == Applied(start, Replay(boot, full[..start]))
    requires forall i :: 0 <= i < |turns| ==> turns[i] < |rs|
    requires AllThrough(x, rs, turns)
    ensures var end := EndBefore(start, rs, |rs|);
            end <= |full| && Interleaved(x, rs, turns) == Applied(end, Replay(boot, full[..end]))
  {
    hide Handed, AllThrough, Interleaved, Replay;
    EveryInterleaving(boot, full, start, rs, x, turns);
    NeverAhead(boot, full, start, rs, x, turns);
    Reaches(boot, full, start, rs, x, turns, |rs|);
  }

  // ---- waiting for a commit ---------------------------------------------

  /** What a proposer sees each time it holds the engine lock. */
  datatype Reading = Reading(commitIndex: nat, term: nat, isLeader: bool, available: bool)

  function ReadingOf(s: State, available: bool): Reading {
    Reading(s.commitIndex, s.currentTerm, s.role == Leader, available)
  }

  predicate Confirms(x: Reading, index: nat, term: nat) { x.commitIndex >= index && x.term == term }

  predicate StillLeading(x: Reading, term: nat) { x.term == term && x.isLeader && x.available }

  /** Some reading shows the commit in the same term, and every one before it this member still leading that term. */
  ghost predicate Awaited(readings: seq<Reading>, index: nat, term: nat) {
    exists k :: 0 <= k < |readings| && Confirms(readings[k], index, term)
                && forall j :: 0 <= j < k ==> StillLeading(readings[j], term)
  }

  /** Wait until `index` is committed in `term`; the readings run out at the deadline. */
  method AwaitCommit(readings: seq<Reading>, index: nat, term: nat) returns (ok: bool)
    ensures ok <==> Awaited(readings, index, term)
  {
    for i := 0 to |readings|
      invariant forall j :: 0 <= j < i ==> !Confirms(readings[j], index, term) && StillLeading(readings[j], term)
    {
      if readings[i].commitIndex >= index && readings[i].term == term {
        return true;
      }
      if readings[i].term != term || !readings[i].isLeader {
        return false;
      }
      if !readings[i].available {
        return false;
      }
    }
    return false;
  }
}
