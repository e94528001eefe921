/**
 * What the planner decides for one shard: keep the surviving replicas, fill up
 * from the candidates, drop the most loaded if there are too many, then make at
 * most one improving swap. Stated over the candidates as a map, so by definition
 * it does not depend on their order.
 */
module PlanSpec {
  import opened Model
  import opened NodeOrder

  datatype Slot = Slot(domain: string, load: nat)

  type Pool = map<NodeId, Slot>

  function Ids(s: seq<NodeId>): set<NodeId> { set i | 0 <= i < |s| :: s[i] }

  function Domains(ids: set<NodeId>, pool: Pool): set<string> { set x | x in ids && x in pool :: pool[x].domain }

  function Spread(chosen: seq<NodeId>, pool: Pool): nat { |Domains(Ids(chosen), pool)| }

  function Load(pool: Pool, id: NodeId): nat { if id in pool then pool[id].load else 0 }

  function TotalLoad(chosen: seq<NodeId>, pool: Pool): nat {
    if chosen == [] then 0 else TotalLoad(chosen[..|chosen| - 1], pool) + Load(pool, chosen[|chosen| - 1])
  }

  /** The current replicas that are still candidates, in order. */
  function Kept(current: seq<NodeId>, pool: Pool): seq<NodeId> {
    if current == [] then []
    else
      var rest := Kept(current[..|current| - 1], pool);
      if current[|current| - 1] in pool then rest + [current[|current| - 1]] else rest
  }

  // ---- filling ----------------------------------------------------------

  /** `x` is preferred to `y`: a domain not used yet, then the lower load, then the lower id. */
  predicate Ahead(pool: Pool, used: set<string>, x: NodeId, y: NodeId)
    requires x in pool && y in pool
  {
    var fx, fy := pool[x].domain !in used, pool[y].domain !in used;
    || (fx && !fy)
    || (fx == fy && (pool[x].load < pool[y].load || (pool[x].load == pool[y].load && Less(x, y))))
  }

  ghost predicate IsPick(pool: Pool, used: set<string>, rest: set<NodeId>, x: NodeId) {
    rest <= pool.Keys && x in rest && forall y :: y in rest && y != x ==> Ahead(pool, used, x, y)
  }

  lemma PickExists(pool: Pool, used: set<string>, rest: set<NodeId>)
    requires rest != {} && rest <= pool.Keys
    ensures exists x :: IsPick(pool, used, rest, x)
  {
    var lt := (x: NodeId, y: NodeId) => x in pool && y in pool && Ahead(pool, used, x, y);
    forall x, y, z | x in rest && y in rest && z in rest && lt(x, y) && lt(y, z) ensures lt(x, z) {
      if Less(x, y) && Less(y, z) { LessTransitive(x, y, z); }
    }
    forall x, y | x in rest && y in rest && x != y ensures lt(x, y) != lt(y, x) {
      LessTotal(x, y);
    }
    forall x | x in rest ensures !lt(x, x) {
      LessTotal(x, x);
    }
    LeastExists(rest, lt);
    var m :| m in rest && forall y :: y in rest && y != m ==> lt(m, y);
    assert IsPick(pool, used, rest, m);
  }

  lemma PickUnique(pool: Pool, used: set<string>, rest: set<NodeId>, x: NodeId, y: NodeId)
    requires IsPick(pool, used, rest, x) && IsPick(pool, used, rest, y)
    ensures x == y
  {
    LessTotal(x, y);
  }

  ghost function Pick(pool: Pool, used: set<string>, rest: set<NodeId>): (x: NodeId)
    requires rest != {} && rest <= pool.Keys
    ensures IsPick(pool, used, rest, x)
  {
    PickExists(pool, used, rest);
    var x :| IsPick(pool, used, rest, x);
    x
  }

  ghost function Fill(chosen: seq<NodeId>, rest: set<NodeId>, pool: Pool, rf: nat): seq<NodeId>
    requires rest <= pool.Keys
    decreases |rest|
  {
    if |chosen| >= rf || rest == {} then chosen
    else
      var x := Pick(pool, Domains(Ids(chosen), pool), rest);
      Fill(chosen + [x], rest - {x}, pool, rf)
  }

  // ---- dropping ---------------------------------------------------------

  /** Put `x` behind everything at most as loaded. */
  function InsertByLoad(sorted: seq<NodeId>, x: NodeId, pool: Pool): seq<NodeId> {
    if sorted == [] || Load(pool, sorted[|sorted| - 1]) <= Load(pool, x) then sorted + [x]
    else InsertByLoad(sorted[..|sorted| - 1], x, pool) + [sorted[|sorted| - 1]]
  }

  /** Least loaded first; equals stay in order. */
  function SortByLoad(ids: seq<NodeId>, pool: Pool): seq<NodeId> {
    if ids == [] then [] else InsertByLoad(SortByLoad(ids[..|ids| - 1], pool), ids[|ids| - 1], pool)
  }

  function DropExtras(chosen: seq<NodeId>, pool: Pool, rf: nat): seq<NodeId> {
    if |chosen| > rf && |SortByLoad(chosen, pool)| >= rf then SortByLoad(chosen, pool)[..rf] else chosen
  }

  // ---- swapping ---------------------------------------------------------

  /** Replace the replica at `index` by `candidate`. */
  datatype Swap = Swap(index: nat, candidate: NodeId)

  function Swapped(chosen: seq<NodeId>, w: Swap): seq<NodeId>
    requires w.index < |chosen|
  {
    chosen[w.index := w.candidate]
  }

  function Gain(chosen: seq<NodeId>, pool: Pool, w: Swap): int
    requires w.index < |chosen|
  {
    Spread(Swapped(chosen, w), pool) - Spread(chosen, pool)
  }

  function Relief(chosen: seq<NodeId>, pool: Pool, w: Swap): int
    requires w.index < |chosen|
  {
    Load(pool, chosen[w.index]) - Load(pool, w.candidate)
  }

  /** More spread, or the same spread at a lower load. */
  predicate Improves(chosen: seq<NodeId>, pool: Pool, w: Swap)
    requires w.index < |chosen|
  {
    Gain(chosen, pool, w) > 0 || (Gain(chosen, pool, w) == 0 && Relief(chosen, pool, w) > 0)
  }

  /** The order in which improving swaps are preferred. */
  predicate Better(chosen: seq<NodeId>, pool: Pool, a: Swap, b: Swap)
    requires a.index < |chosen| && b.index < |chosen|
  {
    var ga, gb := Gain(chosen, pool, a), Gain(chosen, pool, b);
    var ra, rb := Relief(chosen, pool, a), Relief(chosen, pool, b);
    var va, vb := Load(pool, chosen[a.index]), Load(pool, chosen[b.index]);
    var ca, cb := Load(pool, a.candidate), Load(pool, b.candidate);
    || ga > gb
    || (ga == gb && (ra > rb
       || (ra == rb && (va > vb
          || (va == vb && (ca < cb
             || (ca == cb && SameLoadBetter(chosen, a, b))))))))
  }

  /** Lower candidate id, then lower victim id, then the earlier victim. */
  predicate SameLoadBetter(chosen: seq<NodeId>, a: Swap, b: Swap)
    requires a.index < |chosen| && b.index < |chosen|
  {
    || Less(a.candidate, b.candidate)
    || (a.candidate == b.candidate && (Less(chosen[a.index], chosen[b.index])
        || (chosen[a.index] == chosen[b.index] && a.index < b.index)))
  }

  ghost function Improving(chosen: seq<NodeId>, rest: set<NodeId>, pool: Pool): set<Swap> {
    set i, c | 0 <= i < |chosen| && c in rest && Improves(chosen, pool, Swap(i, c)) :: Swap(i, c)
  }

  ghost predicate IsBest(chosen: seq<NodeId>, pool: Pool, ws: set<Swap>, w: Swap) {
    && (forall x :: x in ws ==> x.index < |chosen|)
    && w in ws && forall x :: x in ws && x != w ==> Better(chosen, pool, w, x)
  }

  lemma SameLoadTotal(chosen: seq<NodeId>, a: Swap, b: Swap)
    requires a.index < |chosen| && b.index < |chosen|
    ensures a != b ==> SameLoadBetter(chosen, a, b) != SameLoadBetter(chosen, b, a)
    ensures !SameLoadBetter(chosen, a, a)
  {
    LessTotal(a.candidate, b.candidate);
    LessTotal(chosen[a.index], chosen[b.index]);
    LessTotal(a.candidate, a.candidate);
    LessTotal(chosen[a.index], chosen[a.index]);
  }

  lemma SameLoadTransitive(chosen: seq<NodeId>, a: Swap, b: Swap, c: Swap)
    requires a.index < |chosen| && b.index < |chosen| && c.index < |chosen|
    requires SameLoadBetter(chosen, a, b) && SameLoadBetter(chosen, b, c)
    ensures SameLoadBetter(chosen, a, c)
  {
    if Less(a.candidate, b.candidate) && Less(b.candidate, c.candidate) {
      LessTransitive(a.candidate, b.candidate, c.candidate);
    } else if Less(chosen[a.index], chosen[b.index]) && Less(chosen[b.index], chosen[c.index]) {
      LessTransitive(chosen[a.index], chosen[b.index], chosen[c.index]);
    }
  }

  lemma BetterTotal(chosen: seq<NodeId>, pool: Pool, a: Swap, b: Swap)
    requires a.index < |chosen| && b.index < |chosen|
    ensures a != b ==> Better(chosen, pool, a, b) != Better(chosen, pool, b, a)
    ensures !Better(chosen, pool, a, a)
  {
    hide SameLoadBetter, Gain, Relief;
    SameLoadTotal(chosen, a, b);
  }

  lemma BetterTransitive(chosen: seq<NodeId>, pool: Pool, a: Swap, b: Swap, c: Swap)
    requires a.index < |chosen| && b.index < |chosen| && c.index < |chosen|
    requires Better(chosen, pool, a, b) && Better(chosen, pool, b, c)
    ensures Better(chosen, pool, a, c)
  {
    hide SameLoadBetter, Gain, Relief;
    if SameLoadBetter(chosen, a, b) && SameLoadBetter(chosen, b, c) {
      SameLoadTransitive(chosen, a, b, c);
    }
  }

  lemma BestExists(chosen: seq<NodeId>, pool: Pool, ws: set<Swap>)
    requires ws != {} && forall x :: x in ws ==> x.index < |chosen|
    ensures exists w :: IsBest(chosen, pool, ws, w)
  {
    hide Better;
    var lt := (a: Swap, b: Swap) => a.index < |chosen| && b.index < |chosen| && Better(chosen, pool, a, b);
    forall x, y, z | x in ws && y in ws && z in ws && lt(x, y) && lt(y, z) ensures lt(x, z) {
      BetterTransitive(chosen, pool, x, y, z);
    }
    forall x, y | x in ws && y in ws && x != y ensures lt(x, y) != lt(y, x) {
      BetterTotal(chosen, pool, x, y);
    }
    forall x | x in ws ensures !lt(x, x) {
      BetterTotal(chosen, pool, x, x);
    }
    LeastExists(ws, lt);
    var m :| m in ws && forall y :: y in ws && y != m ==> lt(m, y);
    assert IsBest(chosen, pool, ws, m);
  }

  lemma BestUnique(chosen: seq<NodeId>, pool: Pool, ws: set<Swap>, v: Swap, w: Swap)
    requires IsBest(chosen, pool, ws, v) && IsBest(chosen, pool, ws, w)
    ensures v == w
  {
    hide Better;
    BetterTotal(chosen, pool, v, w);
  }

  ghost function Best(chosen: seq<NodeId>, pool: Pool, ws: set<Swap>): (w: Swap)
    requires ws != {} && forall x :: x in ws ==> x.index < |chosen|
    ensures IsBest(chosen, pool, ws, w)
  {
    BestExists(chosen, pool, ws);
    var w :| IsBest(chosen, pool, ws, w);
    w
  }

  /** The best improving swap, if there is one. */
  ghost function SwapOne(chosen: seq<NodeId>, rest: set<NodeId>, pool: Pool): seq<NodeId> {
    var ws := Improving(chosen, rest, pool);
    if ws == {} then chosen else Swapped(chosen, Best(chosen, pool, ws))
  }

  // ---- the plan ---------------------------------------------------------

  /** The replicas before any swap, and the candidates left over. */
  ghost function Filled(current: seq<NodeId>, pool: Pool, rf: nat): seq<NodeId> {
    DropExtras(Fill(Kept(current, pool), pool.Keys - Ids(Kept(current, pool)), pool, rf), pool, rf)
  }

  /** Candidates neither kept nor filled in; what was dropped does not come back in the same call. */
  ghost function Leftover(current: seq<NodeId>, pool: Pool, rf: nat): set<NodeId> {
    pool.Keys - Ids(Fill(Kept(current, pool), pool.Keys - Ids(Kept(current, pool)), pool, rf))
  }

  ghost function Plan(current: seq<NodeId>, pool: Pool, rf: nat): seq<NodeId> {
    var chosen := Filled(current, pool, rf);
    if |chosen| == rf then SwapOne(chosen, Leftover(current, pool, rf), pool) else chosen
  }
}
