/**
 * What the planner's choices amount to, in domains and loads: a fill takes a new
 * domain as long as there is one, then the least loaded node; a plan spreads over as
 * many domains as its survivors leave room for; and no other single replacement would
 * do better than the one made.
 */
module PlanSpread {
  import opened Model
  import opened NodeOrder
  import opened PlanSpec
  import opened PlanProofs

  function Least(a: nat, b: nat): nat { if a < b then a else b }

  // ---- filling ----------------------------------------------------------

  lemma PickedDomain(chosen: seq<NodeId>, rest: set<NodeId>, pool: Pool, x: NodeId)
    requires rest <= pool.Keys && x in rest && Ids(chosen) <= pool.Keys
    ensures Domains(Ids(chosen + [x]), pool) == Domains(Ids(chosen), pool) + {pool[x].domain}
    ensures Domains(rest, pool) == Domains(rest - {x}, pool) + {pool[x].domain}
  {
    IdsPush(chosen, x);
  }

  /** Every pick is of a new domain while there is one: the domains grow by the picks or the new domains, if fewer. */
  lemma {:induction false} FillSpreads(chosen: seq<NodeId>, rest: set<NodeId>, pool: Pool, rf: nat)
    requires rest <= pool.Keys && Ids(chosen) <= pool.Keys && |chosen| <= rf
    ensures var used := Domains(Ids(chosen), pool);
            Spread(Fill(chosen, rest, pool, rf), pool) == |used| + Least(rf - |chosen|, |Domains(rest, pool) - used|)
    decreases |rest|
  {
    hide Domains;
    if |chosen| < rf && rest != {} {
      var x := Pick(pool, Domains(Ids(chosen), pool), rest);
      IdsPush(chosen, x);
      FillSpreads(chosen + [x], rest - {x}, pool, rf);
      PickSpreads(chosen, rest, pool, x);
    } else if rest == {} {
      NoDomains(pool);
    }
  }

  lemma NoDomains(pool: Pool)
    ensures Domains({}, pool) == {}
  {
  }

  lemma PickSpreads(chosen: seq<NodeId>, rest: set<NodeId>, pool: Pool, x: NodeId)
    requires IsPick(pool, Domains(Ids(chosen), pool), rest, x) && Ids(chosen) <= pool.Keys
    ensures var used, more := Domains(Ids(chosen), pool), Domains(Ids(chosen + [x]), pool);
            var before, after := Domains(rest, pool) - used, Domains(rest - {x}, pool) - more;
            if before == {} then |more| == |used| && after == {} else |more| == |used| + 1 && |after| == |before| - 1
  {
    PickedDomain(chosen, rest, pool, x);
    var used := Domains(Ids(chosen), pool);
    var d := pool[x].domain;
    var before := Domains(rest, pool) - used;
    if before != {} {
      var e :| e in before;
      var y :| y in rest && y in pool && pool[y].domain == e;
      assert d !in used;
      assert Domains(rest - {x}, pool) - (used + {d}) == before - {d};
    } else {
      assert d in Domains(rest, pool);
      assert used + {d} == used;
    }
  }

  /** `x` is as good a choice as `y` after `chosen`: as fresh; then no more loaded; then of a lower id. */
  predicate AsGood(chosen: seq<NodeId>, pool: Pool, x: NodeId, y: NodeId)
    requires x in pool && y in pool
  {
    var used := Domains(Ids(chosen), pool);
    var fx, fy := pool[x].domain !in used, pool[y].domain !in used;
    && (fy ==> fx)
    && (fx == fy ==> pool[x].load <= pool[y].load)
    && (fx == fy && pool[x].load == pool[y].load && x != y ==> Less(x, y))
  }

  /** Everything picked was as good as every candidate it left lying. */
  ghost predicate Greedy(before: seq<NodeId>, r: seq<NodeId>, rest: set<NodeId>, pool: Pool) {
    && before <= r
    && (forall k :: |before| <= k < |r| ==> r[k] in rest && r[k] in pool)
    && (forall k, y :: |before| <= k < |r| && y in rest - Ids(r[..k]) && y in pool ==> AsGood(r[..k], pool, r[k], y))
  }

  lemma {:induction false} FillGreedy(chosen: seq<NodeId>, rest: set<NodeId>, pool: Pool, rf: nat)
    requires rest <= pool.Keys && Ids(chosen) !! rest
    ensures Greedy(chosen, Fill(chosen, rest, pool, rf), rest, pool)
    decreases |rest|
  {
    hide AsGood, Domains, Greedy;
    if |chosen| < rf && rest != {} {
      var x := Pick(pool, Domains(Ids(chosen), pool), rest);
      IdsPush(chosen, x);
      FillGreedy(chosen + [x], rest - {x}, pool, rf);
      PickAsGood(chosen, rest, pool, x);
      GreedyFirst(chosen, Fill(chosen, rest, pool, rf), rest, pool, x);
    } else {
      GreedyStays(chosen, rest, pool);
    }
  }

  lemma PickAsGood(chosen: seq<NodeId>, rest: set<NodeId>, pool: Pool, x: NodeId)
    requires IsPick(pool, Domains(Ids(chosen), pool), rest, x)
    ensures forall y :: y in rest && y in pool ==> AsGood(chosen, pool, x, y)
  {
    hide Domains, Less;
  }

  lemma GreedyStays(chosen: seq<NodeId>, rest: set<NodeId>, pool: Pool)
    ensures Greedy(chosen, chosen, rest, pool)
  {
  }

  lemma GreedyFirst(chosen: seq<NodeId>, r: seq<NodeId>, rest: set<NodeId>, pool: Pool, x: NodeId)
    requires x in rest && x in pool && Greedy(chosen + [x], r, rest - {x}, pool)
    requires forall y :: y in rest && y in pool ==> AsGood(chosen, pool, x, y)
    ensures Greedy(chosen, r, rest, pool)
  {
    hide AsGood;
    assert r[|chosen|] == (chosen + [x])[|chosen|] == x;
    assert r[..|chosen|] == (chosen + [x])[..|chosen|] == chosen;
    forall k, y | |chosen| <= k < |r| && y in rest - Ids(r[..k]) && y in pool
      ensures r[k] in rest && r[k] in pool && AsGood(r[..k], pool, r[k], y)
    {
      if k > |chosen| {
        assert r[..k][|chosen|] == x;
        assert y != x;
      }
    }
  }

  // ---- the plan ---------------------------------------------------------

  ghost function DomainsOf(pool: Pool): set<string> { Domains(pool.Keys, pool) }

  lemma FilledSpreads(current: seq<NodeId>, pool: Pool, rf: nat)
    requires Distinct(current) && |Ids(current) * pool.Keys| <= rf
    ensures var survivors := Ids(current) * pool.Keys;
            var used := Domains(survivors, pool);
            Spread(Filled(current, pool, rf), pool) == |used| + Least(rf - |survivors|, |DomainsOf(pool) - used|)
  {
    var kept := Kept(current, pool);
    hide Fill, Domains, SortByLoad;
    KeptOk(current, pool);
    DistinctSize(kept);
    var rest := pool.Keys - Ids(kept);
    FillSpreads(kept, rest, pool, rf);
    FillOk(kept, rest, pool, rf);
    OtherDomains(Ids(kept), pool);
  }

  lemma OtherDomains(some: set<NodeId>, pool: Pool)
    ensures Domains(pool.Keys - some, pool) - Domains(some, pool) == DomainsOf(pool) - Domains(some, pool)
  {
  }

  /**
   * When at most `rf` replicas survive, `r` uses at least the survivors' domains and as many
   * more as there are free places or other domains; started from nothing, it uses as many
   * domains as it can.
   */
  ghost predicate WellSpread(current: seq<NodeId>, r: seq<NodeId>, pool: Pool, rf: nat) {
    var survivors := Ids(current) * pool.Keys;
    var used := Domains(survivors, pool);
    && (|survivors| <= rf ==>
          |Domains(Ids(r), pool)| >= |used| + Least(rf - |survivors|, |DomainsOf(pool) - used|))
    && (current == [] ==> |Domains(Ids(r), pool)| == Least(rf, |DomainsOf(pool)|))
  }

  /** The spread of a plan, whatever its input. */
  lemma PlanSpreads(current: seq<NodeId>, pool: Pool, rf: nat)
    requires Distinct(current)
    ensures WellSpread(current, Plan(current, pool, rf), pool, rf)
  {
    hide Plan, Filled, Domains;
    PlanContract(current, pool, rf);
    var r := Plan(current, pool, rf);
    if |Ids(current) * pool.Keys| <= rf {
      FilledSpreads(current, pool, rf);
    }
    if current == [] {
      assert Ids(current) * pool.Keys == {};
      NoDomains(pool);
      assert DomainsOf(pool) - {} == DomainsOf(pool);
      DomainsWithin(Ids(r), pool);
      AtMostOneEach(r, pool);
    }
  }

  lemma DomainsWithin(ids: set<NodeId>, pool: Pool)
    ensures |Domains(ids, pool)| <= |DomainsOf(pool)|
  {
    SubsetSize(Domains(ids, pool), DomainsOf(pool));
  }

  lemma {:induction false} AtMostOneEach(s: seq<NodeId>, pool: Pool)
    ensures |Domains(Ids(s), pool)| <= |s|
  {
    if s == [] {
      assert Domains(Ids(s), pool) == {};
    } else {
      var k := |s| - 1;
      AtMostOneEach(s[..k], pool);
      assert s == s[..k] + [s[k]];
      IdsPush(s[..k], s[k]);
      if s[k] in pool {
        assert Domains(Ids(s), pool) == Domains(Ids(s[..k]), pool) + {pool[s[k]].domain};
      } else {
        assert Domains(Ids(s), pool) == Domains(Ids(s[..k]), pool);
      }
    }
  }

  // ---- the swap ---------------------------------------------------------

  /** `r` is at least as good as `t`: more domains, or as many at no higher total load. */
  predicate NoWorse(r: seq<NodeId>, t: seq<NodeId>, pool: Pool) {
    || Spread(r, pool) > Spread(t, pool)
    || (Spread(r, pool) == Spread(t, pool) && TotalLoad(r, pool) <= TotalLoad(t, pool))
  }

  /** Among replacements that come to the same: the more loaded victim, the lower newcomer, the lower victim. */
  predicate Precedes(chosen: seq<NodeId>, pool: Pool, w: Swap, v: Swap)
    requires w.index < |chosen| && v.index < |chosen|
  {
    var x, y := chosen[w.index], chosen[v.index];
    || Load(pool, x) > Load(pool, y)
    || (Load(pool, x) == Load(pool, y)
        && (Less(w.candidate, v.candidate)
            || (w.candidate == v.candidate && (Less(x, y) || (x == y && w.index <= v.index)))))
  }

  /** No other single replacement does better, and the set as it was is replaced only by a better one. */
  lemma SwapIsBest(chosen: seq<NodeId>, rest: set<NodeId>, pool: Pool)
    ensures var r := SwapOne(chosen, rest, pool);
            && NoWorse(r, chosen, pool) && (r != chosen ==> !NoWorse(chosen, r, pool))
            && (forall v: Swap :: v.index < |chosen| && v.candidate in rest ==> NoWorse(r, Swapped(chosen, v), pool))
  {
    var ws := Improving(chosen, rest, pool);
    var r := SwapOne(chosen, rest, pool);
    if ws != {} {
      var w := Best(chosen, pool, ws);
      assert w in ws && r == Swapped(chosen, w);
      TotalLoadSwap(chosen, pool, w);
    }
    forall v: Swap | v.index < |chosen| && v.candidate in rest ensures NoWorse(r, Swapped(chosen, v), pool) {
      TotalLoadSwap(chosen, pool, v);
      if Improves(chosen, pool, v) {
        assert v in ws;
      }
    }
  }

  /** Which of several equally good replacements is made. */
  lemma SwapTies(chosen: seq<NodeId>, rest: set<NodeId>, pool: Pool) returns (w: Swap)
    requires SwapOne(chosen, rest, pool) != chosen
    ensures w.index < |chosen| && w.candidate in rest && SwapOne(chosen, rest, pool) == Swapped(chosen, w)
    ensures forall v: Swap ::
              (v.index < |chosen| && v.candidate in rest && NoWorse(Swapped(chosen, v), Swapped(chosen, w), pool)) ==>
                Precedes(chosen, pool, w, v)
  {
    var ws := Improving(chosen, rest, pool);
    w := Best(chosen, pool, ws);
    assert w in ws && Improves(chosen, pool, w);
    TotalLoadSwap(chosen, pool, w);
    forall v: Swap | v.index < |chosen| && v.candidate in rest && NoWorse(Swapped(chosen, v), Swapped(chosen, w), pool)
      ensures Precedes(chosen, pool, w, v)
    {
      TotalLoadSwap(chosen, pool, v);
      assert Improves(chosen, pool, v);
      assert v in ws;
    }
  }
}
