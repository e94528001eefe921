/**
 * What the planner guarantees: the contract of one call, strict improvement over
 * repeated calls, and that every fixed point is spread as widely as it can be.
 */
module PlanProofs {
  import opened Model
  import opened PlanSpec

  // ---- sizes ------------------------------------------------------------

  lemma {:induction false} DistinctSize(s: seq<NodeId>)
    requires Distinct(s)
    ensures |Ids(s)| == |s|
  {
    if s != [] {
      var k := |s| - 1;
      DistinctSize(s[..k]);
      assert Ids(s) == Ids(s[..k]) + {s[k]};
      assert s[k] !in Ids(s[..k]);
    }
  }

  lemma IdsPush(s: seq<NodeId>, x: NodeId)
    ensures Ids(s + [x]) == Ids(s) + {x}
  {
    var t := s + [x];
    forall y ensures y in Ids(t) <==> y in Ids(s) + {x} {
      if y in Ids(s) {
        var i :| 0 <= i < |s| && s[i] == y;
        assert t[i] == y;
      }
      assert t[|s|] == x;
    }
  }

  lemma {:induction false} KeptOk(current: seq<NodeId>, pool: Pool)
    ensures Ids(Kept(current, pool)) == Ids(current) * pool.Keys
    ensures Distinct(current) ==> Distinct(Kept(current, pool))
  {
    if current != [] {
      var k := |current| - 1;
      KeptOk(current[..k], pool);
      assert Ids(current) == Ids(current[..k]) + {current[k]};
      var rest := Kept(current[..k], pool);
      if current[k] in pool {
        IdsPush(rest, current[k]);
        if Distinct(current) { assert current[k] !in Ids(current[..k]); }
      }
    }
  }

  /** Filling appends distinct candidates until `rf` or none are left. */
  lemma {:induction false} FillOk(chosen: seq<NodeId>, rest: set<NodeId>, pool: Pool, rf: nat)
    requires rest <= pool.Keys && Distinct(chosen) && Ids(chosen) !! rest
    ensures var r := Fill(chosen, rest, pool, rf);
            && chosen <= r && Distinct(r) && Ids(r) <= Ids(chosen) + rest
            && |r| == if |chosen| >= rf then |chosen| else if |chosen| + |rest| < rf then |chosen| + |rest| else rf
    decreases |rest|
  {
    if |chosen| < rf && rest != {} {
      var x := Pick(pool, Domains(Ids(chosen), pool), rest);
      var more := chosen + [x];
      IdsPush(chosen, x);
      assert x !in Ids(chosen);
      FillOk(more, rest - {x}, pool, rf);
      assert |rest - {x}| == |rest| - 1;
      assert chosen <= more;
    }
  }

  lemma {:induction false} InsertByLoadOk(sorted: seq<NodeId>, x: NodeId, pool: Pool)
    ensures multiset(InsertByLoad(sorted, x, pool)) == multiset(sorted) + multiset{x}
    ensures ByLoad(sorted, pool) ==> ByLoad(InsertByLoad(sorted, x, pool), pool)
    decreases |sorted|
  {
    hide Load;
    if sorted != [] && Load(pool, sorted[|sorted| - 1]) > Load(pool, x) {
      var k := |sorted| - 1;
      InsertByLoadOk(sorted[..k], x, pool);
      assert sorted == sorted[..k] + [sorted[k]];
      if ByLoad(sorted, pool) {
        InsertedBelow(sorted, x, pool, InsertByLoad(sorted[..k], x, pool));
      }
    }
  }

  lemma InsertedBelow(sorted: seq<NodeId>, x: NodeId, pool: Pool, r: seq<NodeId>)
    requires sorted != [] && ByLoad(sorted, pool) && Load(pool, sorted[|sorted| - 1]) > Load(pool, x)
    requires multiset(r) == multiset(sorted[..|sorted| - 1]) + multiset{x} && ByLoad(r, pool)
    ensures ByLoad(r + [sorted[|sorted| - 1]], pool)
  {
    hide Load;
    var k := |sorted| - 1;
    forall i | 0 <= i < |r| ensures Load(pool, r[i]) <= Load(pool, sorted[k]) {
      assert r[i] in multiset(r);
      if r[i] != x {
        assert r[i] in multiset(sorted[..k]);
        var j :| 0 <= j < k && sorted[..k][j] == r[i];
      }
    }
  }

  ghost predicate ByLoad(s: seq<NodeId>, pool: Pool) {
    forall i, j :: 0 <= i < j < |s| ==> Load(pool, s[i]) <= Load(pool, s[j])
  }

  lemma {:induction false} SortByLoadOk(ids: seq<NodeId>, pool: Pool)
    ensures multiset(SortByLoad(ids, pool)) == multiset(ids) && |SortByLoad(ids, pool)| == |ids|
    ensures ByLoad(SortByLoad(ids, pool), pool)
  {
    if ids != [] {
      var k := |ids| - 1;
      SortByLoadOk(ids[..k], pool);
      InsertByLoadOk(SortByLoad(ids[..k], pool), ids[k], pool);
      assert ids == ids[..k] + [ids[k]];
    }
    assert |multiset(SortByLoad(ids, pool))| == |multiset(ids)|;
  }

  /** The ids of one load, in order. */
  function WithLoad(s: seq<NodeId>, pool: Pool, load: nat): seq<NodeId> {
    if s == [] then []
    else WithLoad(s[..|s| - 1], pool, load) + if Load(pool, s[|s| - 1]) == load then [s[|s| - 1]] else []
  }

  lemma {:induction false} InsertByLoadStable(sorted: seq<NodeId>, x: NodeId, pool: Pool, load: nat)
    requires ByLoad(sorted, pool)
    ensures WithLoad(InsertByLoad(sorted, x, pool), pool, load) ==
            WithLoad(sorted, pool, load) + if Load(pool, x) == load then [x] else []
    decreases |sorted|
  {
    if sorted == [] || Load(pool, sorted[|sorted| - 1]) <= Load(pool, x) {
      assert (sorted + [x])[..|sorted|] == sorted;
    } else {
      var k := |sorted| - 1;
      InsertByLoadStable(sorted[..k], x, pool, load);
      var r := InsertByLoad(sorted[..k], x, pool);
      assert (r + [sorted[k]])[..|r|] == r;
      if Load(pool, sorted[k]) == load {
        assert Load(pool, x) != load;
      }
    }
  }

  /** Dropping by load is stable: replicas of equal load keep their order. */
  lemma {:induction false} SortByLoadStable(ids: seq<NodeId>, pool: Pool, load: nat)
    ensures WithLoad(SortByLoad(ids, pool), pool, load) == WithLoad(ids, pool, load)
  {
    if ids != [] {
      var k := |ids| - 1;
      SortByLoadStable(ids[..k], pool, load);
      SortByLoadOk(ids[..k], pool);
      InsertByLoadStable(SortByLoad(ids[..k], pool), ids[k], pool, load);
    }
  }

  lemma DistinctByCount(s: seq<NodeId>)
    ensures Distinct(s) <==> forall x :: multiset(s)[x] <= 1
  {
    if Distinct(s) {
      forall x ensures multiset(s)[x] <= 1 { CountOne(s, x); }
    } else {
      var i, j :| 0 <= i < j < |s| && s[i] == s[j];
      assert s == s[..j] + [s[j]] + s[j + 1..];
      assert multiset(s) == multiset(s[..j]) + multiset{s[j]} + multiset(s[j + 1..]);
      assert s[i] == s[..j][i] && s[..j][i] in multiset(s[..j]);
      assert multiset(s)[s[j]] >= 2;
    }
  }

  lemma {:induction false} CountOne(s: seq<NodeId>, x: NodeId)
    requires Distinct(s)
    ensures multiset(s)[x] <= 1
  {
    if s != [] {
      var k := |s| - 1;
      CountOne(s[..k], x);
      assert s == s[..k] + [s[k]];
      if x == s[k] {
        assert x !in s[..k];
        assert x !in multiset(s[..k]);
      }
    }
  }

  /** Dropping keeps `rf` of the chosen, none more loaded than one that goes. */
  lemma DropExtrasOk(chosen: seq<NodeId>, pool: Pool, rf: nat)
    requires Distinct(chosen)
    ensures var r := DropExtras(chosen, pool, rf);
            && Distinct(r) && Ids(r) <= Ids(chosen) && |r| == (if |chosen| > rf then rf else |chosen|)
            && (forall x, y :: x in Ids(r) && y in Ids(chosen) - Ids(r) ==> Load(pool, x) <= Load(pool, y))
  {
    if |chosen| > rf {
      SortByLoadOk(chosen, pool);
      var t := SortByLoad(chosen, pool);
      DistinctByCount(chosen);
      DistinctByCount(t);
      SameMembers(t, chosen);
      var r := t[..rf];
      assert forall k :: 0 <= k < rf ==> r[k] == t[k] && r[k] in Ids(r);
      forall x, y | x in Ids(r) && y in Ids(chosen) - Ids(r) ensures Load(pool, x) <= Load(pool, y) {
        assert y in Ids(t);
        var i :| 0 <= i < |r| && r[i] == x;
        var j :| 0 <= j < |t| && t[j] == y;
      }
    } else {
      assert Ids(chosen) - Ids(chosen) == {};
    }
  }

  lemma SameMembers(s: seq<NodeId>, t: seq<NodeId>)
    requires multiset(s) == multiset(t)
    ensures Ids(s) == Ids(t)
  {
    forall x ensures x in Ids(s) <==> x in Ids(t) {
      assert x in Ids(s) <==> x in multiset(s);
      assert x in Ids(t) <==> x in multiset(t);
    }
  }

  // ---- one call ---------------------------------------------------------

  lemma SwappedOk(chosen: seq<NodeId>, w: Swap)
    requires Distinct(chosen) && w.index < |chosen| && w.candidate !in Ids(chosen)
    ensures Distinct(Swapped(chosen, w)) && |Swapped(chosen, w)| == |chosen|
    ensures Ids(Swapped(chosen, w)) == Ids(chosen) - {chosen[w.index]} + {w.candidate}
  {
    var r := Swapped(chosen, w);
    forall x ensures x in Ids(r) <==> x in Ids(chosen) - {chosen[w.index]} + {w.candidate} {
      if x in Ids(chosen) && x != chosen[w.index] {
        var i :| 0 <= i < |chosen| && chosen[i] == x;
        assert r[i] == x;
      }
      assert r[w.index] == w.candidate;
    }
  }

  /** What a swap step does: nothing, or one replica goes for a candidate that improves the set. */
  lemma SwapOneOk(chosen: seq<NodeId>, rest: set<NodeId>, pool: Pool)
    requires Distinct(chosen) && Ids(chosen) !! rest
    ensures var r := SwapOne(chosen, rest, pool);
            && Distinct(r) && |r| == |chosen| && Ids(r) <= Ids(chosen) + rest
            && Spread(r, pool) >= Spread(chosen, pool)
            && |Ids(chosen) - Ids(r)| <= 1
  {
    var ws := Improving(chosen, rest, pool);
    if ws == {} {
      assert Ids(chosen) - Ids(chosen) == {};
    } else {
      var w := Best(chosen, pool, ws);
      assert Improves(chosen, pool, w);
      SwappedOk(chosen, w);
      SubsetSize(Ids(chosen) - Ids(Swapped(chosen, w)), {chosen[w.index]});
    }
  }

  lemma FilledOk(current: seq<NodeId>, pool: Pool, rf: nat)
    requires Distinct(current)
    ensures var kept, f := Kept(current, pool), Filled(current, pool, rf);
            && Distinct(f) && Ids(f) <= pool.Keys && |f| == (if |pool| < rf then |pool| else rf)
            && Ids(f) !! Leftover(current, pool, rf)
            && (|kept| <= rf ==> kept <= f)
            && (|f| < rf ==> Leftover(current, pool, rf) == {})
  {
    var kept := Kept(current, pool);
    KeptOk(current, pool);
    DistinctSize(kept);
    var rest := pool.Keys - Ids(kept);
    assert |pool.Keys| == |Ids(kept)| + |rest| by { assert pool.Keys == Ids(kept) + rest; }
    assert |pool| == |pool.Keys|;
    FillOk(kept, rest, pool, rf);
    var full := Fill(kept, rest, pool, rf);
    DropExtrasOk(full, pool, rf);
    if |full| < rf {
      DistinctSize(full);
      SubsetSize(Ids(full), pool.Keys);
    }
  }

  /**
   * The planner's contract, for distinct current replicas: exactly min(rf,
   * candidates) distinct candidates; the spread never falls below what was kept
   * and filled; and if the survivors number at most `rf`, at most one of them goes.
   */
  lemma PlanContract(current: seq<NodeId>, pool: Pool, rf: nat)
    requires Distinct(current)
    ensures var r, kept := Plan(current, pool, rf), Kept(current, pool);
            && Distinct(r) && Ids(r) <= pool.Keys && |r| == (if |pool| < rf then |pool| else rf)
            && Spread(r, pool) >= Spread(Filled(current, pool, rf), pool)
            && Ids(kept) == Ids(current) * pool.Keys
            && (|kept| <= rf ==> |Ids(kept) - Ids(r)| <= 1)
  {
    hide Improving, Spread;
    var kept, f := Kept(current, pool), Filled(current, pool, rf);
    var r := Plan(current, pool, rf);
    KeptOk(current, pool);
    FilledOk(current, pool, rf);
    SwapOneOk(f, Leftover(current, pool, rf), pool);
    if |kept| <= rf {
      PrefixIds(kept, f);
      assert |Ids(f) - Ids(f)| == 0;
      SubsetSize(Ids(kept) - Ids(r), Ids(f) - Ids(r));
    }
  }

  lemma PrefixIds(a: seq<NodeId>, b: seq<NodeId>)
    requires a <= b
    ensures Ids(a) <= Ids(b)
  {
    forall x | x in Ids(a) ensures x in Ids(b) {
      var i :| 0 <= i < |a| && a[i] == x;
      assert b[i] == x;
    }
  }

  // ---- repeated calls ---------------------------------------------------

  lemma {:induction false} TotalLoadSwap(chosen: seq<NodeId>, pool: Pool, w: Swap)
    requires w.index < |chosen|
    ensures TotalLoad(Swapped(chosen, w), pool) ==
            TotalLoad(chosen, pool) - Load(pool, chosen[w.index]) + Load(pool, w.candidate)
    decreases |chosen|
  {
    var k := |chosen| - 1;
    var r := Swapped(chosen, w);
    if w.index == k {
      assert r[..k] == chosen[..k];
    } else {
      assert r[..k] == Swapped(chosen[..k], w);
      TotalLoadSwap(chosen[..k], pool, w);
    }
  }

  /** `r` is spread wider than `s`, or as wide at a lower total load. */
  ghost predicate StrictlyBetter(r: seq<NodeId>, s: seq<NodeId>, pool: Pool) {
    || Spread(r, pool) > Spread(s, pool)
    || (Spread(r, pool) == Spread(s, pool) && TotalLoad(r, pool) < TotalLoad(s, pool))
  }

  /** A set of replicas as the planner returns it. */
  ghost predicate Settled(s: seq<NodeId>, pool: Pool, rf: nat) {
    Distinct(s) && Ids(s) <= pool.Keys && |s| == if |pool| < rf then |pool| else rf
  }

  lemma {:induction false} KeptAll(s: seq<NodeId>, pool: Pool)
    requires Ids(s) <= pool.Keys
    ensures Kept(s, pool) == s
  {
    if s != [] {
      var k := |s| - 1;
      assert s[k] in Ids(s);
      assert Ids(s[..k]) <= Ids(s);
      KeptAll(s[..k], pool);
    }
  }

  /** On a settled set the planner only swaps, and only at full size. */
  lemma SettledPlan(s: seq<NodeId>, pool: Pool, rf: nat)
    requires Settled(s, pool, rf)
    ensures Plan(s, pool, rf) == (if |s| == rf then SwapOne(s, pool.Keys - Ids(s), pool) else s)
  {
    KeptAll(s, pool);
    if |s| < rf {
      DistinctSize(s);
      SubsetSize(Ids(s), pool.Keys);
      assert pool.Keys - Ids(s) == {};
    }
  }

  /** Each later call returns its input or something strictly better. */
  lemma PlanImproves(s: seq<NodeId>, pool: Pool, rf: nat)
    requires Settled(s, pool, rf)
    ensures var r := Plan(s, pool, rf); Settled(r, pool, rf) && (r == s || StrictlyBetter(r, s, pool))
  {
    PlanContract(s, pool, rf);
    SettledPlan(s, pool, rf);
    hide Spread, Plan;
    var ws := Improving(s, pool.Keys - Ids(s), pool);
    if |s| == rf && ws != {} {
      var w := Best(s, pool, ws);
      assert Improves(s, pool, w);
      TotalLoadSwap(s, pool, w);
    }
  }

  lemma {:induction false} SharedDomain(s: seq<NodeId>, pool: Pool) returns (i: nat, j: nat)
    requires Distinct(s) && Ids(s) <= pool.Keys && Spread(s, pool) < |s|
    ensures i < j < |s| && s[i] in pool && s[j] in pool && pool[s[i]].domain == pool[s[j]].domain
  {
    var k := |s| - 1;
    var t := s[..k];
    assert s[k] in Ids(s);
    var d := pool[s[k]].domain;
    assert Ids(s) == Ids(t) + {s[k]};
    assert Domains(Ids(s), pool) == Domains(Ids(t), pool) + {d};
    if d in Domains(Ids(t), pool) {
      var x :| x in Ids(t) && x in pool && pool[x].domain == d;
      i :| 0 <= i < |t| && t[i] == x;
      j := k;
    } else {
      i, j := SharedDomain(t, pool);
    }
  }

  /** Replacing one of two replicas in a shared domain by one in an unused domain widens the spread. */
  lemma FreshDomainGains(s: seq<NodeId>, pool: Pool, i: nat, j: nat, c: NodeId)
    requires Distinct(s) && Ids(s) <= pool.Keys && i < j < |s| && c in pool && c !in Ids(s)
    requires s[i] in pool && s[j] in pool && pool[s[i]].domain == pool[s[j]].domain
    requires pool[c].domain !in Domains(Ids(s), pool)
    ensures Gain(s, pool, Swap(j, c)) > 0
  {
    var r := Swapped(s, Swap(j, c));
    SwappedOk(s, Swap(j, c));
    forall d | d in Domains(Ids(s), pool) ensures d in Domains(Ids(r), pool) {
      var x :| x in Ids(s) && x in pool && pool[x].domain == d;
      if x == s[j] {
        assert s[i] in Ids(s) && s[i] != s[j] && s[i] in Ids(r);
        assert pool[s[i]].domain == d;
      } else {
        assert x in Ids(r);
      }
    }
    assert c in Ids(r);
    var wider := Domains(Ids(s), pool) + {pool[c].domain};
    assert wider <= Domains(Ids(r), pool);
    SubsetSize(wider, Domains(Ids(r), pool));
  }

  function DomainsOf(pool: Pool): set<string> { Domains(pool.Keys, pool) }

  /** Every settled fixed point uses as many domains as `rf` and the candidates allow. */
  lemma FixedPointSpread(s: seq<NodeId>, pool: Pool, rf: nat)
    requires Settled(s, pool, rf) && Plan(s, pool, rf) == s
    ensures Spread(s, pool) == if |DomainsOf(pool)| < rf then |DomainsOf(pool)| else rf
  {
    SpreadBounds(s, pool);
    DistinctSize(s);
    if |s| < rf {
      SubsetSize(Ids(s), pool.Keys);
    } else if Spread(s, pool) < rf && Spread(s, pool) < |DomainsOf(pool)| {
      NarrowMoves(s, pool, rf);
    }
  }

  lemma NarrowMoves(s: seq<NodeId>, pool: Pool, rf: nat)
    requires Settled(s, pool, rf) && |s| == rf && Spread(s, pool) < rf && Spread(s, pool) < |DomainsOf(pool)|
    ensures Plan(s, pool, rf) != s
  {
    var i, j := SharedDomain(s, pool);
    var c := UnusedDomain(s, pool);
    FreshDomainGains(s, pool, i, j, c);
    SettledPlan(s, pool, rf);
    var rest := pool.Keys - Ids(s);
    var ws := Improving(s, rest, pool);
    assert Swap(j, c) in ws;
    var w := Best(s, pool, ws);
    assert w in ws && w.candidate in rest;
    assert s[w.index] in Ids(s);
    assert Swapped(s, w)[w.index] == w.candidate != s[w.index];
  }

  lemma SpreadBounds(s: seq<NodeId>, pool: Pool)
    ensures Spread(s, pool) <= |DomainsOf(pool)| && Spread(s, pool) <= |s|
  {
    SubsetSize(Domains(Ids(s), pool), DomainsOf(pool));
    SpreadAtMost(s, pool);
  }

  lemma {:induction false} SpreadAtMost(s: seq<NodeId>, pool: Pool)
    ensures Spread(s, pool) <= |s|
  {
    if s == [] {
      assert Domains(Ids(s), pool) == {};
    } else {
      var k := |s| - 1;
      SpreadAtMost(s[..k], pool);
      assert Ids(s) == Ids(s[..k]) + {s[k]};
      var d := if s[k] in pool then {pool[s[k]].domain} else {};
      assert Domains(Ids(s), pool) == Domains(Ids(s[..k]), pool) + d;
    }
  }

  lemma UnusedDomain(s: seq<NodeId>, pool: Pool) returns (c: NodeId)
    requires Spread(s, pool) < |DomainsOf(pool)|
    ensures c in pool && c !in Ids(s) && pool[c].domain !in Domains(Ids(s), pool)
  {
    var used := Domains(Ids(s), pool);
    assert DomainsOf(pool) - used != {} by {
      if DomainsOf(pool) <= used {
        SubsetSize(DomainsOf(pool), used);
      } else {
        var d :| d in DomainsOf(pool) && d !in used;
        assert d in DomainsOf(pool) - used;
      }
    }
    var d :| d in DomainsOf(pool) - used;
    c :| c in pool.Keys && c in pool && pool[c].domain == d;
  }

  /** The replicas after `n` calls with the candidates unchanged. */
  ghost function Repeated(current: seq<NodeId>, pool: Pool, rf: nat, n: nat): seq<NodeId> {
    if n == 0 then current else Plan(Repeated(current, pool, rf, n - 1), pool, rf)
  }

  /** How far a set is from being spread as widely as possible. */
  ghost function Missing(s: seq<NodeId>, pool: Pool): nat {
    SpreadBounds(s, pool);
    |DomainsOf(pool)| - Spread(s, pool)
  }

  lemma {:induction false} SettledReaches(s: seq<NodeId>, pool: Pool, rf: nat) returns (n: nat)
    requires Settled(s, pool, rf)
    ensures var r := Repeated(s, pool, rf, n); Settled(r, pool, rf) && Plan(r, pool, rf) == r
    decreases Missing(s, pool), TotalLoad(s, pool)
  {
    hide Plan, Spread, TotalLoad;
    PlanImproves(s, pool, rf);
    var r := Plan(s, pool, rf);
    if r == s {
      n := 0;
    } else {
      var m := SettledReaches(r, pool, rf);
      n := m + 1;
      RepeatedShift(s, pool, rf, m);
    }
  }

  lemma {:induction false} RepeatedShift(s: seq<NodeId>, pool: Pool, rf: nat, m: nat)
    ensures Repeated(s, pool, rf, m + 1) == Repeated(Plan(s, pool, rf), pool, rf, m)
  {
    hide Plan;
    if m > 0 {
      RepeatedShift(s, pool, rf, m - 1);
    } else {
      assert Repeated(s, pool, rf, 0) == s;
    }
  }

  /**
   * With the candidates fixed, repeated planning from any distinct replicas reaches
   * a fixed point, and there the replicas use as many domains as possible.
   */
  lemma PlanningConverges(current: seq<NodeId>, pool: Pool, rf: nat) returns (n: nat)
    requires Distinct(current)
    ensures var r := Repeated(current, pool, rf, n);
            && Plan(r, pool, rf) == r && Settled(r, pool, rf)
            && Spread(r, pool) == if |DomainsOf(pool)| < rf then |DomainsOf(pool)| else rf
  {
    hide Plan, Spread;
    PlanContract(current, pool, rf);
    var m := SettledReaches(Plan(current, pool, rf), pool, rf);
    RepeatedShift(current, pool, rf, m);
    n := m + 1;
    FixedPointSpread(Repeated(current, pool, rf, n), pool, rf);
  }

  // ---- between ticks ----------------------------------------------------

  /** The candidates once one replica has moved from `v` to `c`. */
  function Moved(pool: Pool, v: NodeId, c: NodeId): Pool
    requires v in pool && c in pool && v != c && pool[v].load >= 1
  {
    pool[v := pool[v].(load := pool[v].load - 1)][c := pool[c].(load := pool[c].load + 1)]
  }

  /**
   * Loads follow the replicas, and then a swap may be undone: the reverse of an
   * improving swap improves again exactly when it gained no domain and relieved by
   * just one.
   */
  lemma SwapReverses(chosen: seq<NodeId>, pool: Pool, w: Swap)
    requires Distinct(chosen) && w.index < |chosen| && chosen[w.index] in pool && w.candidate in pool
    requires w.candidate !in Ids(chosen) && pool[chosen[w.index]].load >= 1 && Improves(chosen, pool, w)
    ensures var v := chosen[w.index];
            v != w.candidate &&
            (Improves(Swapped(chosen, w), Moved(pool, v, w.candidate), Swap(w.index, v)) <==>
             Gain(chosen, pool, w) == 0 && Relief(chosen, pool, w) == 1)
  {
    var v := chosen[w.index];
    assert v in Ids(chosen);
    var after := Moved(pool, v, w.candidate);
    SameSpread(chosen, pool, after);
    SameSpread(Swapped(chosen, w), pool, after);
    assert Swapped(Swapped(chosen, w), Swap(w.index, v)) == chosen;
  }

  lemma SameSpread(s: seq<NodeId>, a: Pool, b: Pool)
    requires a.Keys == b.Keys && forall x :: x in a ==> a[x].domain == b[x].domain
    ensures Spread(s, a) == Spread(s, b)
  {
    assert Domains(Ids(s), a) == Domains(Ids(s), b);
  }

  /** One replica on the busier of two candidates, whatever their domains: it moves to the other. */
  lemma LoneReplicaMoves(a: NodeId, b: NodeId, pool: Pool)
    requires a != b && pool.Keys == {a, b} && pool[b].load < pool[a].load
    ensures Plan([a], pool, 1) == [b]
  {
    assert |pool| == 2 by { assert |{a, b}| == 2; }
    assert Ids([a]) == {a} by { assert [a][0] == a; }
    SettledPlan([a], pool, 1);
    var rest := pool.Keys - Ids([a]);
    assert rest == {b};
    var w := Swap(0, b);
    assert Swapped([a], w) == [b];
    assert Ids([b]) == {b} by { assert [b][0] == b; }
    assert Domains({a}, pool) == {pool[a].domain} && Domains({b}, pool) == {pool[b].domain};
    assert Improves([a], pool, w);
    assert w in Improving([a], rest, pool);
    assert forall x :: x in Improving([a], rest, pool) ==> x == w;
  }
}
