/**
 * The control plane as it is written: membership, placement and policies updated
 * in place, and the reconcile loop over them, proved to take exactly the steps of
 * `SchedulerSpec`.
 */
module Scheduler {
  import opened Model
  import opened NodeOrder
  import opened PlanSpec
  import opened PlanProofs
  import opened SchedulerSpec
  import opened ReplicaFloor
  import Planner
  import Q = Leadership

  // ---- reports ----------------------------------------------------------

  /** Drop what does not exist or repeats, in one pass. */
  method RetainShards(shards: seq<ShardId>, allowed: ShardId -> bool) returns (kept: seq<ShardId>)
    ensures kept == Retain(shards, allowed)
  {
    kept := [];
    var seen: set<ShardId> := {};
    for i := 0 to |shards|
      invariant kept == Retain(shards[..i], allowed)
      invariant forall s :: s in seen <==> s in kept
    {
      assert shards[..i + 1][..i] == shards[..i];
      if allowed(shards[i]) && shards[i] !in seen {
        seen := seen + {shards[i]};
        kept := kept + [shards[i]];
      }
    }
    assert shards[..|shards|] == shards;
  }

  method SanitizeReport(r: Report, shardCount: nat) returns (q: Report)
    ensures q == Sanitized(r, shardCount)
  {
    var hosted := RetainShards(r.hosted, s => s < shardCount);
    var leading := RetainShards(r.leading, s => s in hosted);
    q := r.(hosted := hosted, leading := leading);
  }

  method NormalizedDomain(r: Report) returns (domain: string)
    ensures domain == DomainOf(r)
  {
    if Trim(r.failureDomain) != "" {
      return Q.Lower(Trim(r.failureDomain));
    }
    domain := NormalizedFromParts(r.cloudProvider, r.region, r.clusterId, "");
  }

  /** Case by case over which parts are known. */
  method NormalizedFromParts(cloudProvider: string, region: string, clusterId: string, fallback: string)
    returns (domain: string)
    ensures domain == DomainFromParts(cloudProvider, region, clusterId, fallback)
  {
    var a, b, c := Q.Lower(Trim(cloudProvider)), Q.Lower(Trim(region)), Q.Lower(Trim(clusterId));
    domain :=
      match (a == "", b == "", c == "")
      case (false, false, false) => a + "/" + b + "/" + c
      case (false, false, true) => a + "/" + b
      case (false, true, false) => a + "/" + c
      case (false, true, true) => a
      case (true, false, false) => b + "/" + c
      case (true, false, true) => b
      case (true, true, false) => c
      case (true, true, true) => fallback;
  }

  /** A node's entry after a report, field by field. */
  method RefreshEntry(existing: Option<NodeInfo>, id: NodeId, now: nat, r: Report) returns (entry: NodeInfo)
    ensures entry == Refreshed(if existing.Some? then existing.value else Registered(now, r), id, now, r)
  {
    hide DomainOf, DomainFromParts;
    var normalized := NormalizedDomain(r);
    entry := NodeInfo(r.address, Healthy, r.cloudProvider, r.region, r.clusterId, normalized, now, [], [], 0);
    if existing.Some? {
      entry := existing.value;
    }
    entry := entry.(lastSeen := now);
    if r.address != "" { entry := entry.(address := r.address); }
    if r.cloudProvider != "" { entry := entry.(cloudProvider := r.cloudProvider); }
    if r.region != "" { entry := entry.(region := r.region); }
    if r.clusterId != "" { entry := entry.(clusterId := r.clusterId); }
    if r.failureDomain != "" {
      entry := entry.(failureDomain := normalized);
    } else if entry.failureDomain == "" {
      var derived := NormalizedFromParts(entry.cloudProvider, entry.region, entry.clusterId, id);
      entry := entry.(failureDomain := derived);
    }
    entry := entry.(hosted := r.hosted, leading := r.leading);
    if entry.lastSeq < r.seq_ { entry := entry.(lastSeq := r.seq_); }
    if entry.health != Draining { entry := entry.(health := Healthy); }
  }

  // ---- counting ---------------------------------------------------------

  /** Count one for each replica that is tracked. */
  method CountEach(start: map<NodeId, nat>, replicas: seq<NodeId>) returns (load: map<NodeId, nat>)
    ensures load.Keys == start.Keys && forall n :: n in start ==> load[n] == start[n] + multiset(replicas)[n]
  {
    load := start;
    for i := 0 to |replicas|
      invariant load.Keys == start.Keys
      invariant forall n :: n in start ==> load[n] == start[n] + multiset(replicas[..i])[n]
    {
      assert replicas[..i + 1] == replicas[..i] + [replicas[i]];
      if replicas[i] in load {
        load := load[replicas[i] := load[replicas[i]] + 1];
      }
    }
    assert replicas[..|replicas|] == replicas;
  }

  method CountReplicas(placed: Placed, ns: set<NodeId>, shardCount: nat) returns (load: map<NodeId, nat>)
    ensures load == Recount(placed, ns, shardCount)
  {
    load := map n | n in ns :: 0;
    for s := 0 to shardCount
      invariant load.Keys == ns && forall n :: n in ns ==> load[n] == ReplicaCount(placed, n, s)
    {
      if s in placed {
        var replicas := placed[s].replicas;
        load := CountEach(load, replicas);
      }
    }
  }

  method CountLeaders(placed: Placed, ns: set<NodeId>, shardCount: nat) returns (load: map<NodeId, nat>)
    ensures load == LeaderRecount(placed, ns, shardCount)
  {
    load := map n | n in ns :: 0;
    for s := 0 to shardCount
      invariant load.Keys == ns && forall n :: n in ns ==> load[n] == LeaderCount(placed, n, s)
    {
      if s in placed && placed[s].preferredLeader.Some? && placed[s].preferredLeader.value in load {
        var l := placed[s].preferredLeader.value;
        load := load[l := load[l] + 1];
      }
    }
  }

  // ---- which nodes stay active ------------------------------------------

  method MostLoaded(ids: seq<NodeId>, load: map<NodeId, nat>) returns (pick: nat)
    requires ids != []
    ensures pick < |ids| && (Distinct(ids) ==> IsBusiest(load, Ids(ids), ids[pick]))
  {
    pick := 0;
    for i := 1 to |ids|
      invariant pick < i
      invariant Distinct(ids) ==> forall k :: 0 <= k < i && k != pick ==> StaysBefore(load, ids[pick], ids[k])
    {
      LessTotal(ids[i], ids[pick]);
      var a, b := Get(load, ids[i]), Get(load, ids[pick]);
      if a > b || (a == b && Less(ids[i], ids[pick])) {
        forall k | 0 <= k < i && k != pick && Distinct(ids) ensures StaysBefore(load, ids[i], ids[k]) {
          if Less(ids[i], ids[pick]) && Less(ids[pick], ids[k]) {
            LessTransitive(ids[i], ids[pick], ids[k]);
          }
        }
        pick := i;
      }
    }
  }

  lemma RemoveAt(ids: seq<NodeId>, i: nat)
    requires Distinct(ids) && i < |ids|
    ensures var r := ids[..i] + ids[i + 1..]; Distinct(r) && Ids(r) == Ids(ids) - {ids[i]}
  {
    var r := ids[..i] + ids[i + 1..];
    forall x ensures x in Ids(r) <==> x in Ids(ids) - {ids[i]} {
      if x in Ids(r) {
        var k :| 0 <= k < |r| && r[k] == x;
        assert x == ids[if k < i then k else k + 1];
      }
      if x in Ids(ids) && x != ids[i] {
        var k :| 0 <= k < |ids| && ids[k] == x;
        assert x == r[if k < i then k else k - 1];
      }
    }
  }

  lemma ActiveStep(ns: set<NodeId>, load: map<NodeId, nat>, target: nat, x: NodeId)
    requires target > 0 && IsBusiest(load, ns, x)
    ensures Active(ns, load, target) == {x} + Active(ns - {x}, load, target - 1)
  {
    hide StaysBefore;
    BusiestUnique(load, ns, x, Busiest(load, ns));
  }

  lemma ActiveEnds(ns: set<NodeId>, load: map<NodeId, nat>, target: nat)
    ensures target == 0 || ns == {} ==> Active(ns, load, target) == {}
    ensures |ns| <= target ==> Active(ns, load, target) == ns
  {
    hide Active;
    SubsetSize(Active(ns, load, target), ns);
  }

  /** `active` have been picked and the rest of the choice is among `rest`. */
  ghost predicate Picking(all: set<NodeId>, load: map<NodeId, nat>, target: nat, active: seq<NodeId>,
                          rest: seq<NodeId>) {
    && |active| <= target && Distinct(rest) && Distinct(active) && Ids(active) !! Ids(rest)
    && Active(all, load, target) == Ids(active) + Active(Ids(rest), load, target - |active|)
  }

  lemma PickNext(all: set<NodeId>, load: map<NodeId, nat>, target: nat, active: seq<NodeId>, rest: seq<NodeId>, i: nat)
    requires Picking(all, load, target, active, rest) && |active| < target && i < |rest|
    requires IsBusiest(load, Ids(rest), rest[i])
    ensures Picking(all, load, target, active + [rest[i]], rest[..i] + rest[i + 1..])
  {
    hide Active, IsBusiest, Ids, Distinct;
    ActiveStep(Ids(rest), load, target - |active|, rest[i]);
    Picked(active, rest, i);
  }

  lemma PickingEnds(all: set<NodeId>, load: map<NodeId, nat>, target: nat, active: seq<NodeId>, rest: seq<NodeId>)
    requires Picking(all, load, target, active, rest) && (|active| == target || rest == [])
    ensures Distinct(active) && Ids(active) == Active(all, load, target)
  {
    hide Active, Distinct;
    NoneListed(rest);
    ActiveEnds(Ids(rest), load, target - |active|);
  }

  lemma PickingStarts(ids: seq<NodeId>, load: map<NodeId, nat>, target: nat)
    requires Distinct(ids)
    ensures Picking(Ids(ids), load, target, [], ids)
    ensures |ids| <= target ==> Ids(ids) == Active(Ids(ids), load, target)
  {
    hide Active;
    DistinctSize(ids);
    ActiveEnds(Ids(ids), load, target);
    assert Ids([]) == {};
  }

  /** The busiest by load, as many as `target`, in ascending order of id. */
  method ActiveNodesForTarget(ids: seq<NodeId>, load: map<NodeId, nat>, target: nat) returns (active: seq<NodeId>)
    requires Lists(ids, Ids(ids))
    ensures Lists(active, Active(Ids(ids), load, target))
  {
    ListsDistinct(ids, Ids(ids));
    PickingStarts(ids, load, target);
    if |ids| <= target {
      return ids;
    }
    hide Picking, Active, IsBusiest, Ids, Lists;
    active := [];
    var rest := ids;
    while |active| < target && rest != []
      invariant Picking(Ids(ids), load, target, active, rest) && |active| <= target && Distinct(rest)
      decreases |rest|
    {
      var i := MostLoaded(rest, load);
      PickNext(Ids(ids), load, target, active, rest, i);
      active, rest := active + [rest[i]], rest[..i] + rest[i + 1..];
    }
    PickingEnds(Ids(ids), load, target, active, rest);
    active := InOrder(Ids(active));
  }

  /** The members of `s` in ascending order. */
  method InOrder(s: set<NodeId>) returns (ids: seq<NodeId>)
    ensures Lists(ids, s)
  {
    ids := [];
    ghost var listed: set<NodeId> := {};
    var rest := s;
    while rest != {}
      invariant rest + listed == s && rest !! listed && Lists(ids, listed)
      invariant forall x, y :: x in listed && y in rest ==> Less(x, y)
      decreases |rest|
    {
      var least := LeastOf(rest);
      ListsPush(ids, listed, least);
      ids := ids + [least];
      rest, listed := rest - {least}, listed + {least};
    }
  }

  lemma Picked(active: seq<NodeId>, rest: seq<NodeId>, i: nat)
    requires Distinct(active) && Distinct(rest) && Ids(active) !! Ids(rest) && i < |rest|
    ensures var a, r := active + [rest[i]], rest[..i] + rest[i + 1..];
            Distinct(a) && Distinct(r) && Ids(a) !! Ids(r) && Ids(a) == Ids(active) + {rest[i]}
              && Ids(r) == Ids(rest) - {rest[i]}
  {
    assert rest[i] in Ids(rest);
    RemoveAt(rest, i);
    IdsPush(active, rest[i]);
  }

  // ---- what nodes report ------------------------------------------------

  method ObservedReplicas(nodes: Nodes, ids: seq<NodeId>, shard: ShardId) returns (hosting: seq<NodeId>)
    ensures hosting == Hosting(nodes, ids, shard)
  {
    hosting := [];
    for i := 0 to |ids|
      invariant hosting == Hosting(nodes, ids[..i], shard)
    {
      assert ids[..i + 1][..i] == ids[..i];
      var n := ids[i];
      ghost var before := hosting;
      if n in nodes && nodes[n].health == Healthy {
        var hosted := nodes[n].hosted;
        for k := 0 to |hosted|
          invariant hosting == before + Copies(n, hosted[..k], shard)
        {
          assert hosted[..k + 1][..k] == hosted[..k];
          if hosted[k] == shard {
            hosting := hosting + [n];
          }
        }
        assert hosted[..|hosted|] == hosted;
      }
    }
    assert ids[..|ids|] == ids;
  }

  method ObservedLeader(nodes: Nodes, ids: seq<NodeId>, shard: ShardId) returns (leader: Option<NodeId>)
    ensures leader == Leading(nodes, ids, shard)
  {
    leader := None;
    for i := 0 to |ids|
      invariant leader == Leading(nodes, ids[..i], shard)
    {
      assert ids[..i + 1][..i] == ids[..i];
      if ids[i] in nodes && nodes[ids[i]].health == Healthy && shard in nodes[ids[i]].leading {
        leader := Some(ids[i]);
      }
    }
    assert ids[..|ids|] == ids;
  }

  // ---- one shard --------------------------------------------------------

  function NodeSlotOf(nodes: Nodes, n: NodeId, load: map<NodeId, nat>): Planner.NodeSlot {
    Planner.NodeSlot(n, if n in nodes then nodes[n].failureDomain else "", Get(load, n))
  }

  method SlotsFor(nodes: Nodes, active: seq<NodeId>, load: map<NodeId, nat>, ghost env: Env)
    returns (slots: seq<Planner.NodeSlot>)
    requires Distinct(active) && env.nodes == nodes
    ensures Planner.DistinctSlots(slots) && Planner.PoolOf(slots) == Candidates(env, Ids(active), load)
  {
    slots := seq(|active|, i requires 0 <= i < |active| => NodeSlotOf(nodes, active[i], load));
    SlotsPool(nodes, active, load, slots, env);
  }

  lemma SlotsPool(nodes: Nodes, active: seq<NodeId>, load: map<NodeId, nat>, slots: seq<Planner.NodeSlot>, env: Env)
    requires Distinct(active) && env.nodes == nodes && |slots| == |active|
    requires forall i :: 0 <= i < |active| ==> slots[i] == NodeSlotOf(nodes, active[i], load)
    ensures Planner.DistinctSlots(slots) && Planner.PoolOf(slots) == Candidates(env, Ids(active), load)
  {
    hide Planner.PoolOf, Get, Candidates, Ids;
    assert Planner.DistinctSlots(slots);
    Planner.PoolOfEntries(slots);
    hide Planner.DistinctSlots, Distinct;
    var pool, want := Planner.PoolOf(slots), Candidates(env, Ids(active), load);
    forall x | x in pool ensures x in want && pool[x] == want[x] {
      var i :| 0 <= i < |slots| && slots[i].nodeId == x;
      CandidateSlot(env, active, load, i);
    }
    forall x | x in want ensures x in pool {
      var i := CandidateAt(env, active, load, x);
      assert slots[i].nodeId == x;
    }
  }

  lemma CandidateSlot(env: Env, active: seq<NodeId>, load: map<NodeId, nat>, i: nat)
    requires i < |active|
    ensures var want, slot := Candidates(env, Ids(active), load), NodeSlotOf(env.nodes, active[i], load);
            active[i] in want && want[active[i]] == Slot(slot.domain, slot.load)
  {
    assert active[i] in Ids(active);
  }

  lemma CandidateAt(env: Env, active: seq<NodeId>, load: map<NodeId, nat>, x: NodeId) returns (i: nat)
    requires x in Candidates(env, Ids(active), load)
    ensures i < |active| && active[i] == x
  {
    i :| 0 <= i < |active| && active[i] == x;
  }

  method BumpEach(load: map<NodeId, nat>, ns: seq<NodeId>) returns (r: map<NodeId, nat>)
    ensures r == BumpAll(load, ns)
  {
    r := load;
    for i := 0 to |ns|
      invariant r == BumpAll(load, ns[..i])
    {
      assert ns[..i + 1][..i] == ns[..i];
      if ns[i] in r {
        r := r[ns[i] := r[ns[i]] + 1];
      }
    }
    assert ns[..|ns|] == ns;
  }

  method LowerEach(load: map<NodeId, nat>, ns: seq<NodeId>) returns (r: map<NodeId, nat>)
    ensures r == LowerAll(load, ns)
  {
    r := load;
    for i := 0 to |ns|
      invariant r == LowerAll(load, ns[..i])
    {
      assert ns[..i + 1][..i] == ns[..i];
      if ns[i] in r {
        r := r[ns[i] := if r[ns[i]] == 0 then 0 else r[ns[i]] - 1];
      }
    }
    assert ns[..|ns|] == ns;
  }

  /** Every replica's node is known. */
  method AllKnown(replicas: seq<NodeId>, nodes: Nodes) returns (ok: bool)
    ensures ok <==> !exists i :: 0 <= i < |replicas| && replicas[i] !in nodes
  {
    for i := 0 to |replicas|
      invariant forall k :: 0 <= k < i ==> replicas[k] in nodes
    {
      if replicas[i] !in nodes { return false; }
    }
    return true;
  }

  /** Membership, placement and policies of a single-member control plane. */
  class ControlPlane {
    const shardCount: nat
    const timing: Timing
    const plan: ScalePlan
    var nodes: Nodes
    var placed: Placed
    var policies: map<ShardId, Q.Policy>

    ghost function World(): World
      reads this
    {
      ReplicaFloor.World(nodes, placed, policies)
    }

    ghost function Setup(): Setup {
      ReplicaFloor.Setup(shardCount, plan.replicationFactor, plan.targetNodes, timing)
    }

    constructor (shardCount: nat, timing: Timing, plan: ScalePlan)
      ensures this.shardCount == shardCount && this.timing == timing && this.plan == plan
      ensures World() == ReplicaFloor.World(map[], map[], map[])
    {
      this.shardCount, this.timing, this.plan := shardCount, timing, plan;
      nodes, placed, policies := map[], map[], map[];
    }

    method HeartbeatFrom(id: NodeId, now: nat, report: Report) returns (health: Health)
      modifies this`nodes
      ensures World() == After(Setup(), old(World()), Beats(id, now, report))
      ensures id in nodes && health == nodes[id].health
    {
      hide Refreshed, Registered;
      var r := SanitizeReport(report, shardCount);
      if id in nodes && r.seq_ != 0 && r.seq_ <= nodes[id].lastSeq {
        return nodes[id].health;
      }
      var entry := RefreshEntry(if id in nodes then Some(nodes[id]) else None, id, now, r);
      nodes := nodes[id := entry];
      health := entry.health;
    }

    method Drain(id: NodeId) returns (known: bool)
      modifies this`nodes
      ensures World() == After(Setup(), old(World()), Drains(id))
      ensures known <==> id in old(nodes)
    {
      known := id in nodes;
      if known {
        nodes := nodes[id := nodes[id].(health := Draining)];
      }
    }

    method SetPolicy(shard: ShardId, policy: Q.Policy)
      modifies this`policies
      ensures World() == After(Setup(), old(World()), Decrees(shard, policy))
    {
      policies := policies[shard := policy];
    }

    /** Demote silent nodes, reporting which have just died. */
    method SweepNodes(now: nat, oracle: NodeId -> Liveness) returns (newlyDead: set<NodeId>)
      modifies this`nodes
      ensures World() == After(Setup(), old(World()), Sweeps(now, oracle))
      ensures newlyDead == set id | id in old(nodes) && old(nodes)[id].health != Dead && nodes[id].health == Dead
    {
      nodes, newlyDead := SweepAll(nodes, now, timing, oracle);
    }

    /** The node ids in ascending order. */
    method Snapshot() returns (ids: seq<NodeId>)
      ensures Lists(ids, nodes.Keys)
    {
      ids := InOrder(nodes.Keys);
    }

    /** Apply an `AssignShard`. */
    method Assign(a: ShardAssignment)
      modifies this`placed
      ensures placed == old(placed)[a.shardId := a]
    {
      placed := placed[a.shardId := a];
    }

    /** Apply a `ForgetNode`: never a node that is still assigned. */
    method Forget(id: NodeId)
      modifies this`nodes
      ensures nodes == if Assigned(placed, id) then old(nodes) else old(nodes) - {id}
    {
      var stillAssigned := IsAssigned(placed, id);
      if !stillAssigned {
        nodes := nodes - {id};
      }
    }

    /** One shard's turn of a tick. */
    method PlaceShard(shard: ShardId, ids: seq<NodeId>, active: seq<NodeId>, rf: nat,
                      load: map<NodeId, nat>, leaderLoad: map<NodeId, nat>, ghost env: Env)
      returns (load': map<NodeId, nat>, leaderLoad': map<NodeId, nat>)
      requires Distinct(active) && env.ids == ids && env.nodes == nodes && env.policies == policies && env.rf == rf
      requires forall s :: s in placed ==> placed[s].shardId == s
      modifies this`placed
      ensures Board(placed, load', leaderLoad') == Turn(env, Ids(active), old(Board(placed, load, leaderLoad)), shard)
      ensures forall s :: s in placed ==> placed[s].shardId == s
    {
      hide Turn;
      var a;
      a, load', leaderLoad' := Decide(shard, ids, nodes, policies, placed, active, rf, load, leaderLoad, env);
      if a.Some? {
        Assign(a.value);
      }
    }

    /** The per-shard loop. */
    method PlaceShards(ids: seq<NodeId>, active: seq<NodeId>, rf: nat, ghost env: Env)
      requires Distinct(active) && env.ids == ids && env.nodes == nodes && env.policies == policies && env.rf == rf
      requires env.shardCount == shardCount && forall s :: s in placed ==> placed[s].shardId == s
      modifies this`placed
      ensures placed == Turns(env, Ids(active), Board(old(placed), Recount(old(placed), Ids(active), shardCount),
                                                      LeaderRecount(old(placed), Ids(active), shardCount)),
                                                        shardCount).placed
    {
      hide Turn;
      var load := CountReplicas(placed, Ids(active), shardCount);
      var leaderLoad := CountLeaders(placed, Ids(active), shardCount);
      ghost var start := Board(placed, load, leaderLoad);
      for shard := 0 to shardCount
        invariant Board(placed, load, leaderLoad) == Turns(env, Ids(active), start, shard)
        invariant forall s :: s in placed ==> placed[s].shardId == s
      {
        load, leaderLoad := PlaceShard(shard, ids, active, rf, load, leaderLoad, env);
      }
    }

    /** Forget the drained nodes that report hosting nothing and are assigned nothing. */
    method ForgetDrained(ids: seq<NodeId>)
      requires Lists(ids, nodes.Keys)
      modifies this`nodes
      ensures nodes == Forgotten(old(nodes), placed)
    {
      ghost var known := nodes;
      for i := 0 to |ids|
        invariant nodes == map n | n in known && !(n in Ids(ids[..i]) && n !in Forgotten(known, placed)) :: known[n]
      {
        var id := ids[i];
        assert Ids(ids[..i + 1]) == Ids(ids[..i]) + {id};
        assert id in Ids(ids);
        if id in nodes && nodes[id].health == Draining && nodes[id].hosted == [] {
          Forget(id);
        }
      }
      assert ids[..|ids|] == ids;
    }

    /** One reconciliation tick; only a leader acts. */
    method Reconcile(isLeader: bool)
      requires forall s :: s in placed ==> placed[s].shardId == s
      modifies this`placed, this`nodes
      ensures World() == if isLeader then After(Setup(), old(World()), Reconciles) else old(World())
    {
      if !isLeader {
        return;
      }
      var rf := if plan.replicationFactor < 1 then 1 else plan.replicationFactor;
      var target := if plan.targetNodes < rf then rf else plan.targetNodes;
      var ids := Snapshot();
      ghost var env := EnvOf(Setup(), World());
      ListingUnique(ids, env.ids, nodes.Keys);
      var healthy := HealthyOf(ids, nodes);
      var load := CountReplicas(placed, Ids(healthy), shardCount);
      var active := ActiveNodesForTarget(healthy, load, target);
      ListsDistinct(active, Ids(active));
      ghost var before := placed;
      PlaceShards(ids, active, rf, env);
      assert placed == Reconciled(env, before);
      ForgetDrained(ids);
    }
  }

  /** One pass of the failure detector. */
  method SweepAll(nodes: Nodes, now: nat, timing: Timing, oracle: NodeId -> Liveness)
    returns (swept: Nodes, newlyDead: set<NodeId>)
    ensures swept == Sweep(nodes, now, timing, oracle)
    ensures newlyDead == set id | id in nodes && nodes[id].health != Dead && swept[id].health == Dead
  {
    swept, newlyDead := nodes, {};
    var rest := nodes.Keys;
    ghost var goal := Sweep(nodes, now, timing, oracle);
    while rest != {}
      invariant rest <= nodes.Keys == swept.Keys
      invariant forall id :: id in nodes ==> swept[id] == if id in rest then nodes[id] else goal[id]
      invariant forall id :: id in newlyDead <==>
                  id in nodes && id !in rest && nodes[id].health != Dead && goal[id].health == Dead
      decreases |rest|
    {
      var id :| id in rest;
      var info := swept[id];
      if info.health != Draining {
        var verdict := Judge(info, now, timing, oracle(id));
        if verdict == Dead && info.health != Dead {
          newlyDead := newlyDead + {id};
        }
        swept := swept[id := info.(health := verdict)];
      }
      rest := rest - {id};
    }
  }

  /** What a shard's turn decides: a new assignment if something changes, and the two counters. */
  method Decide(shard: ShardId, ids: seq<NodeId>, nodes: Nodes, policies: map<ShardId, Q.Policy>, placed: Placed,
                active: seq<NodeId>,
                rf: nat, load: map<NodeId, nat>, leaderLoad: map<NodeId, nat>, ghost env: Env)
    returns (a: Option<ShardAssignment>, load': map<NodeId, nat>, leaderLoad': map<NodeId, nat>)
    requires Distinct(active) && env.ids == ids && env.nodes == nodes && env.policies == policies && env.rf == rf
    requires shard in placed ==> placed[shard].shardId == shard
    ensures Board(if a.Some? then placed[shard := a.value] else placed, load', leaderLoad') ==
            Turn(env, Ids(active), Board(placed, load, leaderLoad), shard)
    ensures a.Some? ==> a.value.shardId == shard
  {
    a, load', leaderLoad' := None, load, leaderLoad;
    ghost var b := Board(placed, load, leaderLoad);
    var current, desired, held := WantedReplicas(shard, ids, nodes, placed, active, rf, load, b, env);
    if held {
      return;
    }
    hide Held, Desired, CurrentReplicas, LeaderFor, WithoutOwn;
    load' := LowerEach(load', current);
    load' := BumpEach(load', desired);
    var leader;
    leader, leaderLoad' := ChooseLeader(shard, ids, nodes, policies, placed, active, desired, leaderLoad, b, env);
    var next := ShardAssignment(shard, desired, leader,
                                if shard in policies then policies[shard].homeRegion else None,
                                if shard in policies then policies[shard].preferredCloud else None);
    assert next == AssignmentFor(env, desired, leader, shard);
    var changed := if shard in placed then placed[shard] != next else desired != [];
    if changed {
      a := Some(next);
    }
  }

  /** A shard's current and wanted replicas, and whether it is left alone. */
  method WantedReplicas(shard: ShardId, ids: seq<NodeId>, nodes: Nodes, placed: Placed, active: seq<NodeId>, rf: nat,
                        load: map<NodeId, nat>, ghost b: Board, ghost env: Env)
    returns (current: seq<NodeId>, desired: seq<NodeId>, held: bool)
    requires Distinct(active) && env.ids == ids && env.nodes == nodes && env.rf == rf && b.placed == placed
             && b.load == load
    ensures current == CurrentReplicas(env, placed, shard) && held == Held(env, Ids(active), b, shard)
    ensures !held ==> desired == Desired(env, Ids(active), b, shard)
  {
    hide Plan, Candidates;
    desired := [];
    if shard in placed { current := placed[shard].replicas; } else { current := ObservedReplicas(nodes, ids, shard); }
    var known := AllKnown(current, nodes);
    if !known {
      held := true;
      return;
    }
    var slots := SlotsFor(nodes, active, load, env);
    desired := Planner.PlanReplicas(current, slots, rf);
    DistinctSize(active);
    held := |active| < rf && |desired| < |current| && |desired| < rf;
  }

  /** The leader of a shard, and the leader counts once its choice is made. */
  method ChooseLeader(shard: ShardId, ids: seq<NodeId>, nodes: Nodes, policies: map<ShardId, Q.Policy>, placed: Placed,
                      active: seq<NodeId>, desired: seq<NodeId>, leaderLoad: map<NodeId, nat>, ghost b: Board,
                        ghost env: Env)
    returns (leader: Option<NodeId>, leaderLoad': map<NodeId, nat>)
    requires env.ids == ids && env.nodes == nodes && env.policies == policies && b.placed == placed
             && b.leaderLoad == leaderLoad
    ensures var others := WithoutOwn(b, shard);
            && leader == LeaderFor(env, Ids(active), others, desired, shard)
            && leaderLoad' == if leader.Some? then Bump(others, leader.value) else others
  {
    leaderLoad' := leaderLoad;
    if shard in placed && placed[shard].preferredLeader.Some? {
      var previous := placed[shard].preferredLeader.value;
      if previous in leaderLoad' {
        leaderLoad' := leaderLoad'[previous := if leaderLoad'[previous] == 0 then 0 else leaderLoad'[previous] - 1];
      }
    }
    var policy := if shard in policies then Some(policies[shard]) else None;
    var observed := ObservedLeader(nodes, ids, shard);
    var healthySet := Ids(active);
    var counts := leaderLoad';
    var slots := seq(|desired|, i requires 0 <= i < |desired| => SlotIn(nodes, desired[i], counts));
    assert slots == LeaderSlots(env, desired, counts);
    var target := Q.PreferredLeaderForPolicy(policy, desired, healthySet, slots, observed);
    leader := Q.DesiredLeader(target, desired, healthySet, observed);
    if leader.Some? && leader.value in leaderLoad' {
      leaderLoad' := leaderLoad'[leader.value := leaderLoad'[leader.value] + 1];
    }
  }

  function SlotIn(nodes: Nodes, n: NodeId, leaderLoad: map<NodeId, nat>): Q.LeaderSlot {
    Q.LeaderSlot(n, if n in nodes then nodes[n].cloudProvider else "", if n in nodes then nodes[n].region else "",
                 Get(leaderLoad, n))
  }

  method HealthyOf(ids: seq<NodeId>, nodes: Nodes) returns (healthy: seq<NodeId>)
    requires Lists(ids, nodes.Keys)
    ensures Lists(healthy, HealthyIds(nodes))
  {
    healthy := [];
    for i := 0 to |ids|
      invariant Lists(healthy, Ids(ids[..i]) * HealthyIds(nodes))
    {
      assert Ids(ids[..i + 1]) == Ids(ids[..i]) + {ids[i]};
      assert ids[i] in Ids(ids);
      ghost var listed := Ids(ids[..i]) * HealthyIds(nodes);
      if nodes[ids[i]].health == Healthy {
        NextInOrder(ids, i);
        ListsPush(healthy, listed, ids[i]);
        assert Ids(ids[..i + 1]) * HealthyIds(nodes) == listed + {ids[i]};
        healthy := healthy + [ids[i]];
      } else {
        assert Ids(ids[..i + 1]) * HealthyIds(nodes) == listed;
      }
    }
    assert ids[..|ids|] == ids;
  }

  lemma NextInOrder(ids: seq<NodeId>, i: nat)
    requires Lists(ids, Ids(ids)) && i < |ids|
    ensures ids[i] !in Ids(ids[..i]) && forall y :: y in Ids(ids[..i]) ==> Less(y, ids[i])
  {
    forall y | y in Ids(ids[..i]) ensures Less(y, ids[i]) {
      var k :| 0 <= k < i && ids[..i][k] == y;
    }
    LessTotal(ids[i], ids[i]);
  }

  method LeastOf(s: set<NodeId>) returns (least: NodeId)
    requires s != {}
    ensures least in s && forall y :: y in s && y != least ==> Less(least, y)
  {
    least :| least in s;
    var rest := s - {least};
    while rest != {}
      invariant rest <= s && least in s && least !in rest
      invariant forall y :: y in s - rest && y != least ==> Less(least, y)
      decreases |rest|
    {
      var x :| x in rest;
      LessTotal(x, least);
      if Less(x, least) {
        forall y | y in s - rest && y != least ensures Less(x, y) { LessTransitive(x, least, y); }
        least := x;
      }
      rest := rest - {x};
    }
  }

  method IsAssigned(placed: Placed, id: NodeId) returns (yes: bool)
    ensures yes <==> Assigned(placed, id)
  {
    var rest := placed.Keys;
    while rest != {}
      invariant rest <= placed.Keys
      invariant forall s :: s in placed && s !in rest ==> id !in placed[s].replicas
      decreases |rest|
    {
      var s :| s in rest;
      if id in placed[s].replicas { return true; }
      rest := rest - {s};
    }
    return false;
  }
}
