/**
 * What every tick keeps, and with it every run of heartbeats, sweeps, drains,
 * policy changes and ticks: replica sets stay distinct, bounded, led from within,
 * made of known nodes, and never shrink.
 */
module ReplicaFloor {
  import opened Model
  import opened NodeOrder
  import opened PlanSpec
  import opened PlanProofs
  import opened SchedulerSpec
  import Q = Leadership

  // ---- reports ----------------------------------------------------------

  predicate NoRepeats(shards: seq<ShardId>) { forall i, j :: 0 <= i < j < |shards| ==> shards[i] != shards[j] }

  lemma {:induction false} RetainOk(shards: seq<ShardId>, allowed: ShardId -> bool)
    ensures NoRepeats(Retain(shards, allowed))
    ensures forall s :: s in Retain(shards, allowed) <==> s in shards && allowed(s)
  {
    if shards != [] {
      var k := |shards| - 1;
      RetainOk(shards[..k], allowed);
      assert forall s :: s in shards <==> s in shards[..k] || s == shards[k];
    }
  }

  /** A sanitized report lists existing shards once each, and leads only what it hosts; nothing legitimate is lost. */
  lemma SanitizedOk(r: Report, shardCount: nat)
    ensures var q := Sanitized(r, shardCount);
            && NoRepeats(q.hosted) && NoRepeats(q.leading)
            && (forall s :: s in q.hosted <==> s in r.hosted && s < shardCount)
            && (forall s :: s in q.leading <==> s in r.leading && s in r.hosted && s < shardCount)
  {
    RetainOk(r.hosted, s => s < shardCount);
    var hosted := Retain(r.hosted, s => s < shardCount);
    RetainOk(r.leading, s => s in hosted);
  }

  // ---- adopted replicas are distinct ------------------------------------

  lemma {:induction false} CopiesAtMostOne(n: NodeId, hosted: seq<ShardId>, shard: ShardId)
    requires NoRepeats(hosted)
    ensures Copies(n, hosted, shard) == if shard in hosted then [n] else []
  {
    if hosted != [] {
      var k := |hosted| - 1;
      CopiesAtMostOne(n, hosted[..k], shard);
      assert shard in hosted <==> shard in hosted[..k] || shard == hosted[k];
    }
  }

  ghost predicate Clean(nodes: Nodes) { forall n :: n in nodes ==> NoRepeats(nodes[n].hosted) }

  lemma {:induction false} HostingDistinct(nodes: Nodes, ids: seq<NodeId>, shard: ShardId)
    requires Clean(nodes) && Distinct(ids)
    ensures Distinct(Hosting(nodes, ids, shard)) && Ids(Hosting(nodes, ids, shard)) <= Ids(ids) * nodes.Keys
  {
    if ids != [] {
      var k := |ids| - 1;
      var n := ids[k];
      HostingDistinct(nodes, ids[..k], shard);
      assert Ids(ids) == Ids(ids[..k]) + {n};
      var h := Hosting(nodes, ids[..k], shard);
      assert h + [] == h;
      if n in nodes && nodes[n].health == Healthy {
        CopiesAtMostOne(n, nodes[n].hosted, shard);
        assert n !in Ids(ids[..k]);
        IdsPush(h, n);
        if shard in nodes[n].hosted {
          assert Hosting(nodes, ids, shard) == h + [n];
        } else {
          assert Hosting(nodes, ids, shard) == h;
        }
      }
    }
  }

  // ---- one turn ---------------------------------------------------------

  /** What is wanted of every assignment. */
  ghost predicate Fit(a: ShardAssignment, known: set<NodeId>, rf: nat) {
    && Distinct(a.replicas) && |a.replicas| <= rf && Ids(a.replicas) <= known
    && (a.preferredLeader.Some? ==> a.preferredLeader.value in a.replicas)
    && (a.replicas != [] ==> a.preferredLeader.Some?)
  }

  ghost predicate AllFit(placed: Placed, known: set<NodeId>, rf: nat) {
    forall s :: s in placed ==> placed[s].shardId == s && Fit(placed[s], known, rf)
  }

  ghost predicate EnvOk(env: Env, active: set<NodeId>) {
    && Clean(env.nodes) && Distinct(env.ids) && Ids(env.ids) == env.nodes.Keys
    && active <= env.nodes.Keys && |active| >= (if |HealthyIds(env.nodes)| < env.rf then |HealthyIds(env.nodes)|
                                                else env.rf)
  }

  lemma CurrentDistinct(env: Env, active: set<NodeId>, placed: Placed, shard: ShardId, known: set<NodeId>)
    requires EnvOk(env, active) && AllFit(placed, known, env.rf)
    ensures Distinct(CurrentReplicas(env, placed, shard))
  {
    HostingDistinct(env.nodes, env.ids, shard);
  }

  /** The wanted leader is one of the wanted replicas. */
  lemma LeaderFits(env: Env, active: set<NodeId>, leaderLoad: map<NodeId, nat>, desired: seq<NodeId>, shard: ShardId)
    requires Ids(desired) <= active
    ensures var l := LeaderFor(env, active, leaderLoad, desired, shard);
            (l.Some? ==> l.value in desired) && (desired != [] ==> l.Some?)
  {
    var observed := Leading(env.nodes, env.ids, shard);
    var target := Q.PreferredLeaderForPolicy(PolicyOf(env, shard), desired, active,
                                             LeaderSlots(env, desired, leaderLoad), observed);
    Q.DesiredLeaderCanLead(target, desired, active, observed);
    if desired != [] {
      assert desired[0] in Ids(desired);
    }
  }

  /** The replicas wanted for a shard that is not held. */
  lemma DesiredFits(env: Env, active: set<NodeId>, b: Board, shard: ShardId, known: set<NodeId>)
    requires EnvOk(env, active) && AllFit(b.placed, known, env.rf)
    ensures var current, desired := CurrentReplicas(env, b.placed, shard), Desired(env, active, b, shard);
            && Distinct(desired) && |desired| <= env.rf && Ids(desired) <= active
            && (!Held(env, active, b, shard) ==> |desired| >= env.rf || |desired| >= |current|)
  {
    hide Plan;
    CurrentDistinct(env, active, b.placed, shard, known);
    var pool := Candidates(env, active, b.load);
    assert pool.Keys == active;
    PlanContract(CurrentReplicas(env, b.placed, shard), pool, env.rf);
  }

  /** No shard of `before` has fewer replicas, nor is missing, in `after`. */
  ghost predicate NoneShrinks(before: Placed, after: Placed) {
    forall s :: s in before ==> s in after && |after[s].replicas| >= |before[s].replicas|
  }

  /** `known` are the nodes heard of; after a failover some of them are not in membership. */
  lemma TurnFits(env: Env, active: set<NodeId>, b: Board, shard: ShardId, known: set<NodeId>)
    requires EnvOk(env, active) && env.nodes.Keys <= known && AllFit(b.placed, known, env.rf)
    ensures var r := Turn(env, active, b, shard);
            AllFit(r.placed, known, env.rf) && NoneShrinks(b.placed, r.placed)
  {
    hide Desired, Held, LeaderFor, BumpAll, LowerAll;
    DesiredFits(env, active, b, shard, known);
    var desired := Desired(env, active, b, shard);
    LeaderFits(env, active, WithoutOwn(b, shard), desired, shard);
  }

  lemma {:induction false} TurnsFit(env: Env, active: set<NodeId>, b: Board, k: nat, known: set<NodeId>)
    requires EnvOk(env, active) && env.nodes.Keys <= known && AllFit(b.placed, known, env.rf)
    ensures var r := Turns(env, active, b, k);
            AllFit(r.placed, known, env.rf) && NoneShrinks(b.placed, r.placed)
  {
    hide Turn;
    if k > 0 {
      TurnsFit(env, active, b, k - 1, known);
      TurnFits(env, active, Turns(env, active, b, k - 1), k - 1, known);
    }
  }

  // ---- runs -------------------------------------------------------------

  datatype World = World(nodes: Nodes, placed: Placed, policies: map<ShardId, Q.Policy>)

  datatype Happening =
    | Beats(id: NodeId, now: nat, report: Report)
    | Sweeps(time: nat, oracle: NodeId -> Liveness)
    | Drains(node: NodeId)
    | Decrees(shard: ShardId, policy: Q.Policy)
    | Reconciles
    | FailsOver

  /** The scale plan and the failure detector's timing, constant over a run. */
  datatype Setup = Setup(shardCount: nat, replicationFactor: nat, targetNodes: nat, timing: Timing)

  function Rf(c: Setup): nat { if c.replicationFactor < 1 then 1 else c.replicationFactor }

  function Target(c: Setup): nat { if c.targetNodes < Rf(c) then Rf(c) else c.targetNodes }

  lemma TopExists(s: set<NodeId>) returns (top: NodeId)
    requires s != {}
    ensures top in s && forall y :: y in s && y != top ==> Less(y, top)
  {
    var lt := (x: NodeId, y: NodeId) => Less(y, x);
    forall x, y, z | x in s && y in s && z in s && lt(x, y) && lt(y, z) ensures lt(x, z) { LessTransitive(z, y, x); }
    forall x, y | x in s && y in s && x != y ensures lt(x, y) != lt(y, x) { LessTotal(x, y); }
    forall x | x in s ensures !lt(x, x) { LessTotal(x, x); }
    LeastExists(s, lt);
    top :| top in s && forall y :: y in s && y != top ==> lt(top, y);
  }

  lemma ListsPush(ids: seq<NodeId>, s: set<NodeId>, top: NodeId)
    requires Lists(ids, s) && top !in s && forall y :: y in s ==> Less(y, top)
    ensures Lists(ids + [top], s + {top})
  {
    hide Less;
    IdsPush(ids, top);
    forall i | 0 <= i < |ids| ensures Less(ids[i], top) {
      assert ids[i] in Ids(ids);
    }
  }

  lemma {:induction false} ListingExists(s: set<NodeId>)
    ensures exists ids :: Lists(ids, s)
    decreases |s|
  {
    hide Less, Lists;
    if s == {} {
      NothingListed();
    } else {
      var top := TopExists(s);
      ListingExists(s - {top});
      var ids :| Lists(ids, s - {top});
      ListsPush(ids, s - {top}, top);
      assert s - {top} + {top} == s;
    }
  }

  lemma NothingListed()
    ensures Lists([], {})
  {
  }

  lemma {:induction false} ListingUnique(a: seq<NodeId>, b: seq<NodeId>, s: set<NodeId>)
    requires Lists(a, s) && Lists(b, s)
    ensures a == b
    decreases |a|
  {
    hide Less;
    NoneListed(a);
    NoneListed(b);
    if a != [] && b != [] {
      var x, y := a[|a| - 1], b[|b| - 1];
      LastIsTop(a, s, y);
      LastIsTop(b, s, x);
      LessTotal(x, y);
      ListsPop(a, s);
      ListsPop(b, s);
      ListingUnique(a[..|a| - 1], b[..|b| - 1], s - {x});
      assert a == a[..|a| - 1] + [x] && b == b[..|b| - 1] + [x];
    }
  }

  lemma NoneListed(a: seq<NodeId>)
    ensures Ids(a) == {} <==> a == []
  {
    if a != [] { assert a[0] in Ids(a); }
  }

  lemma LastIsTop(a: seq<NodeId>, s: set<NodeId>, y: NodeId)
    requires Lists(a, s) && a != []
    ensures a[|a| - 1] in s && (y in s ==> y == a[|a| - 1] || Less(y, a[|a| - 1]))
    ensures forall z :: z in a ==> z in s
  {
    hide Less;
    assert forall i :: 0 <= i < |a| ==> a[i] in Ids(a);
    if y in s {
      var i :| 0 <= i < |a| && a[i] == y;
    }
  }

  lemma ListsPop(a: seq<NodeId>, s: set<NodeId>)
    requires Lists(a, s) && a != []
    ensures Lists(a[..|a| - 1], s - {a[|a| - 1]})
  {
    var k := |a| - 1;
    assert Ids(a) == Ids(a[..k]) + {a[k]};
    if a[k] in Ids(a[..k]) {
      var i :| 0 <= i < k && a[i] == a[k];
      LessTotal(a[i], a[k]);
    }
  }

  ghost function Listing(s: set<NodeId>): (ids: seq<NodeId>)
    ensures Lists(ids, s)
  {
    ListingExists(s);
    var ids :| Lists(ids, s);
    ids
  }

  ghost function EnvOf(c: Setup, w: World): Env {
    Env(Listing(w.nodes.Keys), w.nodes, w.policies, Rf(c), Target(c), c.shardCount)
  }

  ghost function After(c: Setup, w: World, h: Happening): World {
    match h
    case Beats(id, now, report) => w.(nodes := Heartbeat(w.nodes, id, now, Sanitized(report, c.shardCount)))
    case Sweeps(now, oracle) => w.(nodes := Sweep(w.nodes, now, c.timing, oracle))
    case Drains(id) => w.(nodes := StartDraining(w.nodes, id))
    case Decrees(shard, policy) => w.(policies := w.policies[shard := policy])
    case FailsOver => w.(nodes := map[])
    case Reconciles =>
      var placed := Reconciled(EnvOf(c, w), w.placed);
      w.(placed := placed, nodes := Forgotten(w.nodes, placed))
  }

  /** The nodes heard of and not forgotten since: a new leader starts without any, but they are still assigned. */
  ghost function Heard(c: Setup, w: World, known: set<NodeId>, h: Happening): set<NodeId> {
    match h
    case Beats(id, _, _) => known + {id}
    case Reconciles => known - (w.nodes.Keys - After(c, w, h).nodes.Keys)
    case _ => known
  }

  ghost function HeardAll(c: Setup, w: World, hs: seq<Happening>): set<NodeId> {
    if hs == [] then w.nodes.Keys
    else
      var front := hs[..|hs| - 1];
      Heard(c, AfterAll(c, w, front), HeardAll(c, w, front), hs[|hs| - 1])
  }

  ghost function AfterAll(c: Setup, w: World, hs: seq<Happening>): World {
    if hs == [] then w else After(c, AfterAll(c, w, hs[..|hs| - 1]), hs[|hs| - 1])
  }

  ghost predicate Good(c: Setup, w: World, known: set<NodeId>) {
    Clean(w.nodes) && w.nodes.Keys <= known && AllFit(w.placed, known, Rf(c))
  }

  lemma ListsDistinct(ids: seq<NodeId>, s: set<NodeId>)
    requires Lists(ids, s)
    ensures Distinct(ids)
  {
    forall i, j | 0 <= i < j < |ids| ensures ids[i] != ids[j] {
      LessTotal(ids[i], ids[j]);
    }
  }

  lemma EnvGood(c: Setup, w: World, known: set<NodeId>)
    requires Good(c, w, known)
    ensures var env := EnvOf(c, w); EnvOk(env, ActiveNow(env, w.placed))
  {
    var env := EnvOf(c, w);
    ListsDistinct(env.ids, w.nodes.Keys);
  }

  /** Nothing that is forgotten is assigned. */
  lemma ForgottenFits(placed: Placed, nodes: Nodes, rf: nat, known: set<NodeId>)
    requires AllFit(placed, known, rf) && nodes.Keys <= known
    ensures AllFit(placed, known - (nodes.Keys - Forgotten(nodes, placed).Keys), rf)
  {
    var rest := known - (nodes.Keys - Forgotten(nodes, placed).Keys);
    forall s | s in placed ensures Ids(placed[s].replicas) <= rest {
      forall n | n in Ids(placed[s].replicas) ensures n in rest {
        assert Assigned(placed, n);
      }
    }
  }

  lemma AfterGood(c: Setup, w: World, h: Happening, known: set<NodeId>)
    requires Good(c, w, known)
    ensures Good(c, After(c, w, h), Heard(c, w, known, h)) && NoneShrinks(w.placed, After(c, w, h).placed)
    ensures w.nodes.Keys == known && !h.FailsOver? ==> After(c, w, h).nodes.Keys == Heard(c, w, known, h)
  {
    match h
    case Beats(id, now, report) => SanitizedOk(report, c.shardCount);
    case Reconciles => ReconcilesGood(c, w, known);
    case _ =>
  }

  lemma ReconcilesGood(c: Setup, w: World, known: set<NodeId>)
    requires Good(c, w, known)
    ensures var r := After(c, w, Reconciles);
            && Good(c, r, Heard(c, w, known, Reconciles)) && NoneShrinks(w.placed, r.placed)
            && (w.nodes.Keys == known ==> r.nodes.Keys == Heard(c, w, known, Reconciles))
  {
    hide Forgotten;
    var env := EnvOf(c, w);
    EnvGood(c, w, known);
    TurnsFit(env, ActiveNow(env, w.placed), StartBoard(env, w.placed), env.shardCount, known);
    ForgottenFits(Reconciled(env, w.placed), w.nodes, Rf(c), known);
    ForgetClean(w.nodes, Reconciled(env, w.placed));
  }

  lemma ForgetClean(nodes: Nodes, placed: Placed)
    requires Clean(nodes)
    ensures Clean(Forgotten(nodes, placed)) && Forgotten(nodes, placed).Keys <= nodes.Keys
  {
  }

  lemma NoneShrinksTransitive(a: Placed, b: Placed, d: Placed)
    requires NoneShrinks(a, b) && NoneShrinks(b, d)
    ensures NoneShrinks(a, d)
  {
  }

  predicate NoFailover(hs: seq<Happening>) { forall i :: 0 <= i < |hs| ==> !hs[i].FailsOver? }

  /**
   * The replica floor: from a cold start, after any sequence of heartbeats, sweeps,
   * drains, policies, failovers and ticks, every assignment has distinct replicas, at
   * most RF of them, all heard of and not forgotten, led by one of them; over any
   * continuation no assignment disappears or loses in size. Without a failover, all
   * replicas are in membership.
   */
  lemma {:induction false} FloorHolds(c: Setup, before: seq<Happening>, more: seq<Happening>)
    ensures var w := World(map[], map[], map[]);
            var a, b := AfterAll(c, w, before), AfterAll(c, w, before + more);
            && Good(c, a, HeardAll(c, w, before)) && Good(c, b, HeardAll(c, w, before + more))
            && NoneShrinks(a.placed, b.placed)
            && (NoFailover(before) ==> a.nodes.Keys == HeardAll(c, w, before))
    decreases |before| + |more|, |more|
  {
    hide After, NoneShrinks, Good, Heard;
    var w := World(map[], map[], map[]);
    if more != [] {
      var k := |more| - 1;
      FloorHolds(c, before, more[..k]);
      var all := before + more;
      assert all[..|all| - 1] == before + more[..k];
      AfterGood(c, AfterAll(c, w, before + more[..k]), more[k], HeardAll(c, w, before + more[..k]));
      NoneShrinksTransitive(AfterAll(c, w, before).placed, AfterAll(c, w, before + more[..k]).placed,
                            AfterAll(c, w, all).placed);
    } else {
      assert before + more == before;
      if before == [] {
        ColdStart(c);
      } else {
        var k := |before| - 1;
        FloorHolds(c, before[..k], []);
        assert before[..k] + [] == before[..k];
        AfterGood(c, AfterAll(c, w, before[..k]), before[k], HeardAll(c, w, before[..k]));
      }
      Unshrunk(AfterAll(c, w, before).placed);
    }
  }

  lemma ColdStart(c: Setup)
    ensures var w := World(map[], map[], map[]); Good(c, w, w.nodes.Keys)
  {
  }

  lemma Unshrunk(a: Placed)
    ensures NoneShrinks(a, a)
  {
  }
}
