/** The planner as it is written, over a list of candidates, proved to compute the plan. */
module Planner {
  import opened Model
  import opened NodeOrder
  import opened PlanSpec
  import opened PlanProofs
  import opened PlanSpread

  datatype NodeSlot = NodeSlot(nodeId: NodeId, domain: string, load: nat)

  predicate DistinctSlots(healthy: seq<NodeSlot>) {
    forall i, j :: 0 <= i < j < |healthy| ==> healthy[i].nodeId != healthy[j].nodeId
  }

  /** The candidates as a map. */
  function PoolOf(healthy: seq<NodeSlot>): Pool {
    if healthy == [] then map[]
    else
      var s := healthy[|healthy| - 1];
      PoolOf(healthy[..|healthy| - 1])[s.nodeId := Slot(s.domain, s.load)]
  }

  lemma {:induction false} PoolOfEntries(healthy: seq<NodeSlot>)
    requires DistinctSlots(healthy)
    ensures forall i :: 0 <= i < |healthy| ==>
              healthy[i].nodeId in PoolOf(healthy) && PoolOf(healthy)[healthy[i].nodeId] ==
                Slot(healthy[i].domain, healthy[i].load)
    ensures forall x :: x in PoolOf(healthy) ==> exists i :: 0 <= i < |healthy| && healthy[i].nodeId == x
  {
    if healthy != [] {
      var k := |healthy| - 1;
      var h := healthy[..k];
      PoolOfEntries(h);
      forall i | 0 <= i < |healthy|
        ensures healthy[i].nodeId in PoolOf(healthy)
                && PoolOf(healthy)[healthy[i].nodeId] == Slot(healthy[i].domain, healthy[i].load)
      {
        if i < k { assert h[i] == healthy[i]; }
      }
      forall x | x in PoolOf(healthy) ensures exists i :: 0 <= i < |healthy| && healthy[i].nodeId == x {
        if x != healthy[k].nodeId {
          assert x in PoolOf(h);
          var i :| 0 <= i < |h| && h[i].nodeId == x;
          assert healthy[i].nodeId == x;
        } else {
          assert healthy[k].nodeId == x;
        }
      }
    }
  }

  /** The first candidate with this id. */
  function Find(healthy: seq<NodeSlot>, id: NodeId): (r: Option<NodeSlot>)
    ensures r.None? <==> forall i :: 0 <= i < |healthy| ==> healthy[i].nodeId != id
    ensures r.Some? ==> r.value in healthy && r.value.nodeId == id
  {
    if healthy == [] then None
    else if healthy[0].nodeId == id then Some(healthy[0])
    else
      var r := Find(healthy[1..], id);
      assert forall i :: 0 < i < |healthy| ==> healthy[i] == healthy[1..][i - 1];
      r
  }

  function LoadFor(id: NodeId, healthy: seq<NodeSlot>): nat {
    match Find(healthy, id) case Some(s) => s.load case None => 0
  }

  function DomainCount(ids: seq<NodeId>, healthy: seq<NodeSlot>): nat {
    |set i | 0 <= i < |ids| && Find(healthy, ids[i]).Some? :: Find(healthy, ids[i]).value.domain|
  }

  lemma FindIsPool(healthy: seq<NodeSlot>, id: NodeId)
    requires DistinctSlots(healthy)
    ensures Find(healthy, id).Some? <==> id in PoolOf(healthy)
    ensures id in PoolOf(healthy) ==>
              PoolOf(healthy)[id] == Slot(Find(healthy, id).value.domain, Find(healthy, id).value.load)
    ensures LoadFor(id, healthy) == Load(PoolOf(healthy), id)
  {
    PoolOfEntries(healthy);
  }

  lemma DomainCountIsSpread(ids: seq<NodeId>, healthy: seq<NodeSlot>)
    requires DistinctSlots(healthy)
    ensures DomainCount(ids, healthy) == Spread(ids, PoolOf(healthy))
  {
    var pool := PoolOf(healthy);
    forall x ensures Find(healthy, x).Some? <==> x in pool {
      FindIsPool(healthy, x);
    }
    var a := set i | 0 <= i < |ids| && Find(healthy, ids[i]).Some? :: Find(healthy, ids[i]).value.domain;
    var b := Domains(Ids(ids), pool);
    forall d | d in a ensures d in b {
      var i :| 0 <= i < |ids| && Find(healthy, ids[i]).Some? && Find(healthy, ids[i]).value.domain == d;
      FindIsPool(healthy, ids[i]);
      assert ids[i] in Ids(ids) && ids[i] in pool;
    }
    forall d | d in b ensures d in a {
      var x :| x in Ids(ids) && x in pool && pool[x].domain == d;
      var i :| 0 <= i < |ids| && ids[i] == x;
      FindIsPool(healthy, ids[i]);
    }
    assert a == b;
  }

  /** Two listings of the same candidates are the same pool. */
  lemma PoolOfOrder(a: seq<NodeSlot>, b: seq<NodeSlot>)
    requires DistinctSlots(a) && DistinctSlots(b) && multiset(a) == multiset(b)
    ensures PoolOf(a) == PoolOf(b)
  {
    PoolIncluded(a, b);
    PoolIncluded(b, a);
  }

  lemma PoolIncluded(a: seq<NodeSlot>, b: seq<NodeSlot>)
    requires DistinctSlots(a) && DistinctSlots(b) && multiset(a) == multiset(b)
    ensures forall x :: x in PoolOf(a) ==> x in PoolOf(b) && PoolOf(a)[x] == PoolOf(b)[x]
  {
    PoolOfEntries(a);
    PoolOfEntries(b);
    forall x | x in PoolOf(a) ensures x in PoolOf(b) && PoolOf(a)[x] == PoolOf(b)[x] {
      var i :| 0 <= i < |a| && a[i].nodeId == x;
      assert a[i] in multiset(b);
      var j :| 0 <= j < |b| && b[j] == a[i];
    }
  }

  // ---- the phases -------------------------------------------------------

  ghost function IdsOf(slots: seq<NodeSlot>): set<NodeId> { set i | 0 <= i < |slots| :: slots[i].nodeId }

  /** `slots` list each of `rest` once, as they are in the pool. */
  ghost predicate Lists(slots: seq<NodeSlot>, rest: set<NodeId>, pool: Pool) {
    && DistinctSlots(slots) && IdsOf(slots) == rest
    && (forall i :: 0 <= i < |slots| ==>
          slots[i].nodeId in pool && pool[slots[i].nodeId] == Slot(slots[i].domain, slots[i].load))
  }

  method KeepHealthy(current: seq<NodeId>, healthy: seq<NodeSlot>) returns (chosen: seq<NodeId>)
    requires DistinctSlots(healthy)
    ensures chosen == Kept(current, PoolOf(healthy))
  {
    PoolOfEntries(healthy);
    var healthyIds := set s | s in healthy :: s.nodeId;
    assert forall x :: x in healthyIds <==> x in PoolOf(healthy);
    chosen := [];
    for i := 0 to |current|
      invariant chosen == Kept(current[..i], PoolOf(healthy))
    {
      assert current[..i + 1][..i] == current[..i];
      if current[i] in healthyIds {
        chosen := chosen + [current[i]];
      }
    }
    assert current[..|current|] == current;
  }

  method Unchosen(chosen: seq<NodeId>, healthy: seq<NodeSlot>) returns (remaining: seq<NodeSlot>)
    requires DistinctSlots(healthy)
    ensures Lists(remaining, PoolOf(healthy).Keys - Ids(chosen), PoolOf(healthy))
  {
    ghost var pool := PoolOf(healthy);
    PoolOfEntries(healthy);
    remaining := [];
    for i := 0 to |healthy|
      invariant forall k :: 0 <= k < |remaining| ==> remaining[k] in healthy[..i] && remaining[k].nodeId !in Ids(chosen)
      invariant DistinctSlots(remaining)
      invariant forall k :: 0 <= k < i && healthy[k].nodeId !in Ids(chosen) ==> healthy[k] in remaining
    {
      if healthy[i].nodeId !in chosen {
        remaining := remaining + [healthy[i]];
      }
    }
    forall x ensures x in IdsOf(remaining) <==> x in pool.Keys - Ids(chosen) {
      if x in pool.Keys - Ids(chosen) {
        var k :| 0 <= k < |healthy| && healthy[k].nodeId == x;
        assert healthy[k] in remaining;
      }
    }
  }

  method UsedDomains(chosen: seq<NodeId>, healthy: seq<NodeSlot>) returns (used: set<string>)
    requires DistinctSlots(healthy)
    ensures used == Domains(Ids(chosen), PoolOf(healthy))
  {
    used := {};
    for i := 0 to |chosen|
      invariant used == Domains(Ids(chosen[..i]), PoolOf(healthy))
    {
      var slot := Find(healthy, chosen[i]);
      FindIsPool(healthy, chosen[i]);
      assert Ids(chosen[..i + 1]) == Ids(chosen[..i]) + {chosen[i]};
      if slot.Some? {
        used := used + {slot.value.domain};
      }
    }
    assert chosen[..|chosen|] == chosen;
  }

  /** Where the preferred candidate is: `min_by` over the remaining ones. */
  method MinBy(remaining: seq<NodeSlot>, used: set<string>, ghost rest: set<NodeId>, ghost pool: Pool)
    returns (pick: nat)
    requires remaining != [] && Lists(remaining, rest, pool) && rest <= pool.Keys
    ensures pick < |remaining| && IsPick(pool, used, rest, remaining[pick].nodeId)
  {
    pick := 0;
    for i := 1 to |remaining|
      invariant pick < i
      invariant forall k :: 0 <= k < i && k != pick ==> Ahead(pool, used, remaining[pick].nodeId, remaining[k].nodeId)
    {
      var a, b := remaining[i], remaining[pick];
      var aFresh, bFresh := a.domain !in used, b.domain !in used;
      LessTotal(a.nodeId, b.nodeId);
      if (aFresh && !bFresh)
         || (aFresh == bFresh && (a.load < b.load || (a.load == b.load && Less(a.nodeId, b.nodeId)))) {
        forall k | 0 <= k < i && k != pick ensures Ahead(pool, used, a.nodeId, remaining[k].nodeId) {
          if Less(a.nodeId, b.nodeId) && Less(b.nodeId, remaining[k].nodeId) {
            LessTransitive(a.nodeId, b.nodeId, remaining[k].nodeId);
          }
        }
        pick := i;
      }
    }
    forall y | y in rest && y != remaining[pick].nodeId ensures Ahead(pool, used, remaining[pick].nodeId, y) {
      var k :| 0 <= k < |remaining| && remaining[k].nodeId == y;
    }
    assert remaining[pick].nodeId in IdsOf(remaining);
  }

  lemma ListsRemove(remaining: seq<NodeSlot>, rest: set<NodeId>, pool: Pool, pick: nat)
    requires Lists(remaining, rest, pool) && pick < |remaining|
    ensures Lists(remaining[..pick] + remaining[pick + 1..], rest - {remaining[pick].nodeId}, pool)
  {
    var r := remaining[..pick] + remaining[pick + 1..];
    forall x ensures x in IdsOf(r) <==> x in rest - {remaining[pick].nodeId} {
      if x in IdsOf(r) {
        var k :| 0 <= k < |r| && r[k].nodeId == x;
        assert r[k] == remaining[if k < pick then k else k + 1];
        assert x in IdsOf(remaining);
      }
      if x in rest && x != remaining[pick].nodeId {
        assert x in IdsOf(remaining);
        var k :| 0 <= k < |remaining| && remaining[k].nodeId == x;
        assert r[if k < pick then k else k - 1].nodeId == x;
      }
    }
  }

  method FillUp(kept: seq<NodeId>, slots: seq<NodeSlot>, healthy: seq<NodeSlot>, rf: nat)
    returns (chosen: seq<NodeId>, remaining: seq<NodeSlot>)
    requires DistinctSlots(healthy) && Lists(slots, PoolOf(healthy).Keys - Ids(kept), PoolOf(healthy))
    ensures chosen == Fill(kept, PoolOf(healthy).Keys - Ids(kept), PoolOf(healthy), rf)
    ensures Greedy(kept, chosen, PoolOf(healthy).Keys - Ids(kept), PoolOf(healthy))
    ensures Lists(remaining, PoolOf(healthy).Keys - Ids(chosen), PoolOf(healthy))
  {
    ghost var pool := PoolOf(healthy);
    ghost var rest := pool.Keys - Ids(kept);
    FillGreedy(kept, rest, pool, rf);
    var used := UsedDomains(kept, healthy);
    chosen, remaining := kept, slots;
    while |chosen| < rf && remaining != []
      invariant rest == pool.Keys - Ids(chosen) && Lists(remaining, rest, pool)
      invariant used == Domains(Ids(chosen), pool)
      invariant Fill(kept, pool.Keys - Ids(kept), pool, rf) == Fill(chosen, rest, pool, rf)
      decreases |remaining|
    {
      var i := MinBy(remaining, used, rest, pool);
      var slot := remaining[i];
      PickUnique(pool, used, rest, slot.nodeId, Pick(pool, used, rest));
      ListsRemove(remaining, rest, pool, i);
      IdsPush(chosen, slot.nodeId);
      remaining := remaining[..i] + remaining[i + 1..];
      used := used + {slot.domain};
      chosen := chosen + [slot.nodeId];
      rest := rest - {slot.nodeId};
    }
    if remaining == [] {
      assert IdsOf(remaining) == {};
    }
  }

  /** The swap the nested search settles on, if any. */
  method BestSwap(chosen: seq<NodeId>, remaining: seq<NodeSlot>, healthy: seq<NodeSlot>, ghost rest: set<NodeId>)
    returns (best: Option<Swap>)
    requires DistinctSlots(healthy) && Lists(remaining, rest, PoolOf(healthy))
    ensures best.None? ==> Improving(chosen, rest, PoolOf(healthy)) == {}
    ensures best.Some? ==> IsBest(chosen, PoolOf(healthy), Improving(chosen, rest, PoolOf(healthy)), best.value)
  {
    ghost var pool := PoolOf(healthy);
    best := None;
    for i := 0 to |remaining|
      invariant SearchOk(chosen, pool, remaining, i, 0, best)
    {
      for j := 0 to |chosen|
        invariant SearchOk(chosen, pool, remaining, i, j, best)
      {
        var better := Consider(chosen, remaining[i], j, healthy, best);
        SearchNext(chosen, pool, remaining, i, j, best, better);
        best := better;
      }
      NextRow(chosen, pool, remaining, i, best);
    }
    SearchDone(chosen, pool, remaining, rest, best);
  }

  /** `w` comes before position `(i, j)` of the search. */
  predicate Visited(remaining: seq<NodeSlot>, i: nat, j: nat, w: Swap, k: nat) {
    k < |remaining| && remaining[k].nodeId == w.candidate && (k < i || (k == i && w.index < j))
  }

  ghost predicate SearchOk(chosen: seq<NodeId>, pool: Pool, remaining: seq<NodeSlot>, i: nat, j: nat,
                           best: Option<Swap>) {
    && (best.Some? ==> best.value.index < |chosen| && Improves(chosen, pool, best.value)
                       && exists k: nat :: Visited(remaining, i, j, best.value, k))
    && (forall w, k: nat :: Visited(remaining, i, j, w, k) && w.index < |chosen| && Improves(chosen, pool, w) ==>
          best.Some? && (w == best.value || Better(chosen, pool, best.value, w)))
  }

  /** What a swap gains in domains and in load, and the two loads. */
  method Weigh(chosen: seq<NodeId>, healthy: seq<NodeSlot>, w: Swap)
    returns (domainGain: int, loadDelta: int, victimLoad: nat, load: nat)
    requires DistinctSlots(healthy) && w.index < |chosen|
    ensures domainGain == Gain(chosen, PoolOf(healthy), w) && loadDelta == Relief(chosen, PoolOf(healthy), w)
    ensures victimLoad == Load(PoolOf(healthy), chosen[w.index]) && load == Load(PoolOf(healthy), w.candidate)
  {
    var trial := chosen[w.index := w.candidate];
    domainGain := DomainCount(trial, healthy) - DomainCount(chosen, healthy);
    victimLoad, load := LoadFor(chosen[w.index], healthy), LoadFor(w.candidate, healthy);
    loadDelta := victimLoad - load;
    DomainCountIsSpread(trial, healthy);
    DomainCountIsSpread(chosen, healthy);
    FindIsPool(healthy, chosen[w.index]);
    FindIsPool(healthy, w.candidate);
  }

  /** Weigh replacing replica `j` by `candidate` against the best so far. */
  method Consider(chosen: seq<NodeId>, candidate: NodeSlot, j: nat, healthy: seq<NodeSlot>, best: Option<Swap>)
    returns (r: Option<Swap>)
    requires DistinctSlots(healthy) && j < |chosen| && candidate.nodeId in PoolOf(healthy)
    requires PoolOf(healthy)[candidate.nodeId] == Slot(candidate.domain, candidate.load)
    requires best.Some? ==> best.value.index < |chosen| && best.value != Swap(j, candidate.nodeId)
    requires best.Some? && best.value.candidate == candidate.nodeId ==> best.value.index < j
    ensures var w := Swap(j, candidate.nodeId);
            r == if Improves(chosen, PoolOf(healthy), w)
              && (best.None? || Better(chosen, PoolOf(healthy), w, best.value))
                 then Some(w) else best
  {
    hide Gain, Relief;
    var w := Swap(j, candidate.nodeId);
    var domainGain, loadDelta, victimLoad, load := Weigh(chosen, healthy, w);
    if domainGain < 0 || (domainGain == 0 && loadDelta <= 0) {
      return best;
    }
    if best.None? {
      return Some(w);
    }
    var b := best.value;
    var bGain, bDelta, bVictimLoad, bLoad := Weigh(chosen, healthy, b);
    var even := domainGain == bGain && loadDelta == bDelta && victimLoad == bVictimLoad && load == bLoad;
    if domainGain > bGain
       || (domainGain == bGain && loadDelta > bDelta)
       || (domainGain == bGain && loadDelta == bDelta && victimLoad > bVictimLoad)
       || (domainGain == bGain && loadDelta == bDelta && victimLoad == bVictimLoad && load < bLoad)
       || (even && Less(candidate.nodeId, b.candidate))
       || (even && candidate.nodeId == b.candidate && Less(chosen[j], chosen[b.index])) {
      return Some(w);
    }
    return best;
  }

  lemma SearchNext(chosen: seq<NodeId>, pool: Pool, remaining: seq<NodeSlot>, i: nat, j: nat, best: Option<Swap>,
                   r: Option<Swap>)
    requires SearchOk(chosen, pool, remaining, i, j, best) && i < |remaining| && j < |chosen|
    requires var w := Swap(j, remaining[i].nodeId);
             r == if Improves(chosen, pool, w) && (best.None? || Better(chosen, pool, w, best.value)) then Some(w)
               else best
    ensures SearchOk(chosen, pool, remaining, i, j + 1, r)
  {
    hide Improves, Better;
    var w := Swap(j, remaining[i].nodeId);
    if r.Some? {
      if r == Some(w) {
        assert Visited(remaining, i, j + 1, w, i);
      } else {
        var k: nat :| Visited(remaining, i, j, best.value, k);
        assert Visited(remaining, i, j + 1, best.value, k);
      }
    }
    var j1 := j + 1;
    forall x, k: nat | Visited(remaining, i, j1, x, k) && x.index < |chosen| && Improves(chosen, pool, x)
      ensures r.Some? && (x == r.value || Better(chosen, pool, r.value, x))
    {
      if Visited(remaining, i, j, x, k) {
        if r == Some(w) && best != r && x != best.value {
          BetterTransitive(chosen, pool, w, best.value, x);
        }
      } else {
        assert x == w;
        if r != Some(w) && w != best.value {
          BetterTotal(chosen, pool, w, best.value);
        }
      }
    }
  }

  lemma NextRow(chosen: seq<NodeId>, pool: Pool, remaining: seq<NodeSlot>, i: nat, best: Option<Swap>)
    requires SearchOk(chosen, pool, remaining, i, |chosen|, best)
    ensures SearchOk(chosen, pool, remaining, i + 1, 0, best)
  {
    hide Improves, Better;
    if best.Some? {
      var k: nat :| Visited(remaining, i, |chosen|, best.value, k);
      assert Visited(remaining, i + 1, 0, best.value, k);
    }
    var i1 := i + 1;
    forall x, k: nat | Visited(remaining, i1, 0, x, k) && x.index < |chosen| && Improves(chosen, pool, x)
      ensures best.Some? && (x == best.value || Better(chosen, pool, best.value, x))
    {
      assert Visited(remaining, i, |chosen|, x, k);
    }
  }

  lemma SearchDone(chosen: seq<NodeId>, pool: Pool, remaining: seq<NodeSlot>, rest: set<NodeId>, best: Option<Swap>)
    requires Lists(remaining, rest, pool) && SearchOk(chosen, pool, remaining, |remaining|, 0, best)
    ensures best.None? ==> Improving(chosen, rest, pool) == {}
    ensures best.Some? ==> IsBest(chosen, pool, Improving(chosen, rest, pool), best.value)
  {
    hide Improves, Better;
    var ws := Improving(chosen, rest, pool);
    forall w | w in ws ensures best.Some? && (w == best.value || Better(chosen, pool, best.value, w)) {
      assert w.candidate in IdsOf(remaining);
      var k: nat :| k < |remaining| && remaining[k].nodeId == w.candidate;
      assert Visited(remaining, |remaining|, 0, w, k);
    }
    if best.Some? {
      var k: nat :| Visited(remaining, |remaining|, 0, best.value, k);
      assert remaining[k].nodeId in IdsOf(remaining);
    }
  }

  method TrySwap(chosen: seq<NodeId>, remaining: seq<NodeSlot>, healthy: seq<NodeSlot>, ghost rest: set<NodeId>)
    returns (r: seq<NodeId>)
    requires DistinctSlots(healthy) && Lists(remaining, rest, PoolOf(healthy))
    ensures r == SwapOne(chosen, rest, PoolOf(healthy))
  {
    hide Improving, Better;
    ghost var pool := PoolOf(healthy);
    r := chosen;
    var best := BestSwap(chosen, remaining, healthy, rest);
    if best.Some? {
      BestUnique(chosen, pool, Improving(chosen, rest, pool), best.value,
                 Best(chosen, pool, Improving(chosen, rest, pool)));
      r := chosen[best.value.index := best.value.candidate];
    }
  }

  /** The desired replicas of one shard. */
  method PlanReplicas(current: seq<NodeId>, healthy: seq<NodeSlot>, rf: nat) returns (chosen: seq<NodeId>)
    requires DistinctSlots(healthy)
    ensures chosen == Plan(current, PoolOf(healthy), rf)
    ensures Distinct(current) ==> WellSpread(current, chosen, PoolOf(healthy), rf)
  {
    ghost var pool := PoolOf(healthy);
    if Distinct(current) {
      PlanSpreads(current, pool, rf);
    }
    var kept := KeepHealthy(current, healthy);
    var slots := Unchosen(kept, healthy);
    var remaining;
    chosen, remaining := FillUp(kept, slots, healthy, rf);
    ghost var rest := pool.Keys - Ids(chosen);
    if |chosen| > rf {
      SortByLoadOk(chosen, pool);
      chosen := SortByLoad(chosen, PoolOf(healthy))[..rf];
    }
    if |chosen| == rf && remaining != [] {
      chosen := TrySwap(chosen, remaining, healthy, rest);
    } else if |chosen| == rf {
      assert IdsOf(remaining) == {};
      assert Improving(chosen, rest, pool) == {};
    }
  }

  /** The order in which candidates are listed makes no difference. */
  lemma OrderIndependent(current: seq<NodeId>, a: seq<NodeSlot>, b: seq<NodeSlot>, rf: nat)
    requires DistinctSlots(a) && DistinctSlots(b) && multiset(a) == multiset(b)
    ensures Plan(current, PoolOf(a), rf) == Plan(current, PoolOf(b), rf)
  {
    PoolOfOrder(a, b);
  }
}
