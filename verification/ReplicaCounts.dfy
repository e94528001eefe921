/**
 * The replica counts a tick works with: when they are true, and what the planner
 * then sees of each node.
 */
module ReplicaCounts {
  import opened Model
  import opened PlanSpec
  import opened SchedulerSpec
  import opened ReplicaFloor
  import B = LeaderBalance
  import T = TickLaws

  lemma CountOne(ns: seq<NodeId>, n: NodeId)
    requires Distinct(ns)
    ensures multiset(ns)[n] == if n in ns then 1 else 0
  {
    if n in ns {
      var i :| 0 <= i < |ns| && ns[i] == n;
      assert ns == ns[..i] + [n] + ns[i + 1..];
      assert n !in ns[..i] && n !in ns[i + 1..];
    }
  }

  lemma {:induction false} BumpAllIs(m: map<NodeId, nat>, ns: seq<NodeId>, n: NodeId)
    requires Distinct(ns)
    ensures BumpAll(m, ns).Keys == m.Keys
    ensures n in m ==> BumpAll(m, ns)[n] == m[n] + if n in ns then 1 else 0
  {
    if ns != [] {
      var k := |ns| - 1;
      BumpAllIs(m, ns[..k], n);
      assert n in ns <==> n in ns[..k] || n == ns[k];
    }
  }

  lemma {:induction false} LowerAllIs(m: map<NodeId, nat>, ns: seq<NodeId>, n: NodeId)
    requires Distinct(ns)
    ensures LowerAll(m, ns).Keys == m.Keys
    ensures n in m ==> LowerAll(m, ns)[n] == if n in ns && m[n] > 0 then m[n] - 1 else m[n]
  {
    if ns != [] {
      var k := |ns| - 1;
      LowerAllIs(m, ns[..k], n);
      assert n in ns <==> n in ns[..k] || n == ns[k];
    }
  }

  /** One shard's replicas, as far as they count for `n`. */
  function Share(placed: Placed, s: ShardId, n: NodeId): nat {
    if s in placed then multiset(placed[s].replicas)[n] else 0
  }

  lemma {:induction false} ReplicaCountChange(placed: Placed, s: ShardId, a: ShardAssignment, n: NodeId, k: nat)
    ensures ReplicaCount(placed[s := a], n, k) + (if s < k then Share(placed, s, n) else 0) ==
            ReplicaCount(placed, n, k) + if s < k then multiset(a.replicas)[n] else 0
  {
    if k > 0 {
      ReplicaCountChange(placed, s, a, n, k - 1);
    }
  }

  lemma {:induction false} ShareWithin(placed: Placed, s: ShardId, n: NodeId, k: nat)
    requires s < k
    ensures Share(placed, s, n) <= ReplicaCount(placed, n, k)
  {
    if s < k - 1 {
      ShareWithin(placed, s, n, k - 1);
    }
  }

  ghost predicate Loaded(env: Env, active: set<NodeId>, b: Board) {
    b.load == Recount(b.placed, active, env.shardCount)
  }

  /** No active node of the adopted replicas counts for anything yet. */
  ghost predicate Uncounted(env: Env, active: set<NodeId>, placed: Placed, current: seq<NodeId>) {
    forall n :: n in active && n in current ==> ReplicaCount(placed, n, env.shardCount) == 0
  }

  /**
   * Exactly when a turn keeps the counts true: the shard is left alone, or had an assignment,
   * or none of the replicas it adopts from the nodes' reports counts for anything yet. Adopted
   * replicas are taken off counts they were never part of.
   */
  lemma TurnLoads(env: Env, active: set<NodeId>, b: Board, s: ShardId, known: set<NodeId>)
    requires EnvOk(env, active) && AllFit(b.placed, known, env.rf) && s < env.shardCount && Loaded(env, active, b)
    ensures Loaded(env, active, Turn(env, active, b, s)) <==>
            || Held(env, active, b, s) || s in b.placed
            || Uncounted(env, active, b.placed, CurrentReplicas(env, b.placed, s))
  {
    hide Desired, Held, LeaderFor, BumpAll, LowerAll, AllFit, EnvOk, ReplicaCount, Hosting;
    if !Held(env, active, b, s) {
      var current, desired := CurrentReplicas(env, b.placed, s), Desired(env, active, b, s);
      CurrentDistinct(env, active, b.placed, s, known);
      T.DesiredSize(env, active, b, s, known);
      var r := Turn(env, active, b, s);
      var a := AssignmentFor(env, desired, LeaderFor(env, active, WithoutOwn(b, s), desired, s), s);
      assert r.load == BumpAll(LowerAll(b.load, current), desired);
      assert r.placed == if s in b.placed || desired != [] then b.placed[s := a] else b.placed;
      forall n | n in active
        ensures n in r.load
        ensures r.load[n] == ReplicaCount(r.placed, n, env.shardCount) <==>
                s in b.placed || n !in current || ReplicaCount(b.placed, n, env.shardCount) == 0
      {
        NodeLoads(env, active, b, s, r, current, desired, n);
      }
      BumpAllIs(LowerAll(b.load, current), desired, "");
      LowerAllIs(b.load, current, "");
      assert r.load.Keys == active;
      SameCounts(r.load, Recount(r.placed, active, env.shardCount), active);
    }
  }

  lemma SameCounts(a: map<NodeId, nat>, b: map<NodeId, nat>, ns: set<NodeId>)
    requires a.Keys == ns && b.Keys == ns
    ensures a == b <==> forall n :: n in ns ==> a[n] == b[n]
  {
  }

  lemma NodeLoads(env: Env, active: set<NodeId>, b: Board, s: ShardId, r: Board, current: seq<NodeId>,
                  desired: seq<NodeId>, n: NodeId)
    requires Loaded(env, active, b) && n in active && s < env.shardCount && Distinct(current) && Distinct(desired)
    requires s in b.placed ==> current == b.placed[s].replicas
    requires r.load == BumpAll(LowerAll(b.load, current), desired)
    requires if s in b.placed || desired != [] then exists a :: r.placed == b.placed[s := a] && a.replicas == desired
             else r.placed == b.placed
    ensures n in r.load
    ensures r.load[n] == ReplicaCount(r.placed, n, env.shardCount) <==>
            s in b.placed || n !in current || ReplicaCount(b.placed, n, env.shardCount) == 0
  {
    hide BumpAll, LowerAll, ReplicaCount, Distinct;
    LowerAllIs(b.load, current, n);
    BumpAllIs(LowerAll(b.load, current), desired, n);
    CountOne(current, n);
    CountOne(desired, n);
    ShareWithin(b.placed, s, n, env.shardCount);
    if s in b.placed || desired != [] {
      var a :| r.placed == b.placed[s := a] && a.replicas == desired;
      ReplicaCountChange(b.placed, s, a, n, env.shardCount);
    }
  }

  /** Every shard has an assignment, or no healthy node reports hosting it. */
  ghost predicate NothingAdopted(env: Env, placed: Placed) {
    forall s: ShardId :: s < env.shardCount ==>
      s in placed || forall n :: n in env.nodes && env.nodes[n].health == Healthy ==> s !in env.nodes[n].hosted
  }

  lemma {:induction false} LoadsKept(env: Env, active: set<NodeId>, placed: Placed, b: Board, k: nat,
                                     known: set<NodeId>)
    requires EnvOk(env, active) && env.nodes.Keys <= known && AllFit(placed, known, env.rf) && k <= env.shardCount
    requires NothingAdopted(env, placed) && b.placed == placed && Loaded(env, active, b)
    ensures Loaded(env, active, Turns(env, active, b, k)) && AllFit(Turns(env, active, b, k).placed, known, env.rf)
  {
    hide Turn, Held, Loaded, NothingAdopted, AllFit, EnvOk, CurrentReplicas;
    TurnsFit(env, active, b, k, known);
    if k > 0 {
      LoadsKept(env, active, placed, b, k - 1, known);
      var c := Turns(env, active, b, k - 1);
      B.TurnsTouchOnce(env, active, b, k - 1, 0, k - 1);
      NothingHere(env, active, c.placed, placed, k - 1, known);
      TurnLoads(env, active, c, k - 1, known);
    }
  }

  lemma NothingHere(env: Env, active: set<NodeId>, at: Placed, placed: Placed, s: ShardId, known: set<NodeId>)
    requires EnvOk(env, active) && AllFit(at, known, env.rf) && NothingAdopted(env, placed) && s < env.shardCount
    requires s in at <==> s in placed
    ensures s in at || Uncounted(env, active, at, CurrentReplicas(env, at, s))
  {
    hide EnvOk, AllFit, ReplicaCount;
    T.StartsFromCurrent(env, active, at, s, known);
  }

  /** What is known of an active node at some point of a tick: its failure domain, and how many replicas it has. */
  ghost function TruePool(env: Env, active: set<NodeId>, at: Placed): Pool {
    map n | n in active :: Slot(if n in env.nodes then env.nodes[n].failureDomain else "",
                                ReplicaCount(at, n, env.shardCount))
  }

  /**
   * In a tick that adopts nothing, every shard that is planned gets what the planner makes of
   * its replicas, the active nodes' failure domains, and their true counts at that point.
   */
  lemma TickPlans(env: Env, placed: Placed, s: ShardId, known: set<NodeId>) returns (current: seq<NodeId>)
    requires T.Ready(env, placed, known) && s < env.shardCount && NothingAdopted(env, placed)
    ensures T.StartsFrom(env, placed, s, current)
    ensures var active, after := ActiveNow(env, placed), Reconciled(env, placed);
            T.Plannable(env, active, current) && s in after ==>
              after[s].replicas == Plan(current, TruePool(env, active, T.BoardAt(env, placed, s).placed), env.rf)
  {
    hide Reconciled, Turns, ActiveNow, StartBoard, Held, LeaderFor, BumpAll, LowerAll, AllFit, EnvOk, Plan,
         ReplicaCount, NothingAdopted;
    var active, b := ActiveNow(env, placed), T.BoardAt(env, placed, s);
    T.OwnTurn(env, placed, s);
    T.BoardOk(env, placed, s, known);
    current := CurrentReplicas(env, b.placed, s);
    assert current == CurrentReplicas(env, placed, s);
    T.StartsFromCurrent(env, active, placed, s, known);
    T.HeldExactly(env, active, b, s, known);
    Loads(env, placed, s, known);
    assert Candidates(env, active, b.load) == TruePool(env, active, b.placed);
  }

  lemma Loads(env: Env, placed: Placed, s: ShardId, known: set<NodeId>)
    requires T.Ready(env, placed, known) && s < env.shardCount && NothingAdopted(env, placed)
    ensures Loaded(env, ActiveNow(env, placed), T.BoardAt(env, placed, s))
  {
    hide Turns, ActiveNow, AllFit, EnvOk, NothingAdopted;
    LoadsKept(env, ActiveNow(env, placed), placed, StartBoard(env, placed), s, known);
  }

  // ---- a cold start miscounts -------------------------------------------

  /** One healthy node, which reports hosting every shard, and one replica wanted. */
  ghost predicate Lone(env: Env, n: NodeId) {
    && env.nodes.Keys == {n} && env.ids == [n] && env.nodes[n].health == Healthy && NoRepeats(env.nodes[n].hosted)
    && (forall s: ShardId :: s < env.shardCount ==> s in env.nodes[n].hosted) && env.rf == 1 && env.target >= 1
  }

  lemma LoneActive(env: Env, n: NodeId, placed: Placed)
    requires Lone(env, n)
    ensures ActiveNow(env, placed) == {n} && EnvOk(env, {n})
  {
    hide Recount;
    assert HealthyIds(env.nodes) == {n};
    assert n == env.ids[0] && n in Ids(env.ids);
    assert Ids(env.ids) == {n};
    SubsetSize(ActiveNow(env, placed), {n});
  }

  lemma LoneHosting(env: Env, n: NodeId, s: ShardId)
    requires Lone(env, n) && s < env.shardCount
    ensures Hosting(env.nodes, env.ids, s) == [n]
  {
    CopiesAtMostOne(n, env.nodes[n].hosted, s);
    assert Hosting(env.nodes, [], s) == [] && env.ids[..0] == [];
  }

  lemma OneOf(r: seq<NodeId>, n: NodeId)
    requires |r| == 1 && Ids(r) <= {n}
    ensures r == [n]
  {
    assert r[0] in Ids(r);
  }

  lemma {:induction false} SameCount(a: Placed, b: Placed, n: NodeId, k: nat)
    requires forall s: ShardId :: s < k ==> (s in a <==> s in b) && (s in a ==> a[s] == b[s])
    ensures ReplicaCount(a, n, k) == ReplicaCount(b, n, k)
  {
    if k > 0 {
      SameCount(a, b, n, k - 1);
    }
  }

  /** However many of its shards a lone node has been given, a cold start counts it with one replica. */
  lemma {:induction false} LoneNodeUndercounted(env: Env, n: NodeId, k: nat)
    requires Lone(env, n) && k <= env.shardCount
    ensures var b := Turns(env, ActiveNow(env, map[]), StartBoard(env, map[]), k);
            && (forall s: ShardId :: s in b.placed <==> s < k) && ReplicaCount(b.placed, n, k) == k
            && b.load == map[n := if k == 0 then 0 else 1]
            && AllFit(b.placed, {n}, env.rf)
  {
    hide Turn, ActiveNow, Lone, EnvOk, AllFit;
    LoneActive(env, n, map[]);
    if k == 0 {
      LoneStart(env, n);
    } else {
      LoneNodeUndercounted(env, n, k - 1);
      LoneTurn(env, n, Turns(env, {n}, StartBoard(env, map[]), k - 1), k - 1);
    }
  }

  lemma NoneFit(rf: nat, n: NodeId)
    ensures AllFit(map[], {n}, rf)
  {
  }

  lemma {:induction false} NoneCounted(n: NodeId, k: nat)
    ensures ReplicaCount(map[], n, k) == 0
  {
    if k > 0 {
      NoneCounted(n, k - 1);
    }
  }

  lemma LoneStart(env: Env, n: NodeId)
    requires Lone(env, n)
    ensures var b := Turns(env, ActiveNow(env, map[]), StartBoard(env, map[]), 0);
            && b.placed == map[] && ReplicaCount(b.placed, n, 0) == 0 && b.load == map[n := 0]
            && AllFit(b.placed, {n}, env.rf)
  {
    LoneActive(env, n, map[]);
    NoneCounted(n, env.shardCount);
    NoneFit(env.rf, n);
  }

  lemma LoneTurn(env: Env, n: NodeId, b: Board, s: ShardId)
    requires Lone(env, n) && EnvOk(env, {n}) && s < env.shardCount && AllFit(b.placed, {n}, env.rf)
    requires (forall t: ShardId :: t in b.placed <==> t < s) && ReplicaCount(b.placed, n, s) == s
    requires b.load == map[n := if s == 0 then 0 else 1]
    ensures var r := Turn(env, {n}, b, s);
            && (forall t: ShardId :: t in r.placed <==> t < s + 1) && ReplicaCount(r.placed, n, s + 1) == s + 1
            && r.load == map[n := 1] && AllFit(r.placed, {n}, env.rf)
  {
    hide Desired, Held, LeaderFor, AllFit, EnvOk, Hosting;
    TurnFits(env, {n}, b, s, {n});
    LoneHosting(env, n, s);
    T.HeldExactly(env, {n}, b, s, {n});
    var desired := Desired(env, {n}, b, s);
    OneOf(desired, n);
    var r := Turn(env, {n}, b, s);
    SameCount(r.placed, b.placed, n, s);
    assert multiset([n])[n] == 1;
    assert BumpAll(LowerAll(b.load, [n]), [n]) == map[n := 1] by {
      OneNode(b.load, n);
    }
  }

  lemma OneNode(m: map<NodeId, nat>, n: NodeId)
    requires m == map[n := 0] || m == map[n := 1]
    ensures BumpAll(LowerAll(m, [n]), [n]) == map[n := 1]
  {
    BumpAllIs(LowerAll(m, [n]), [n], n);
    LowerAllIs(m, [n], n);
  }
}
