/**
 * What a tick does to a shard, told by nodes, domains, policies and silence: when it
 * leaves the shard alone, when and how it fills it, which leader it asks for; and what
 * the failure detector and the choice of active nodes decide.
 */
module TickLaws {
  import opened Model
  import opened NodeOrder
  import opened PlanSpec
  import opened PlanProofs
  import opened PlanSpread
  import opened SchedulerSpec
  import opened ReplicaFloor
  import B = LeaderBalance
  import Q = Leadership

  // ---- a shard's turn in a tick -----------------------------------------

  /** The board when the turn of `s` comes. */
  ghost function BoardAt(env: Env, placed: Placed, s: ShardId): Board {
    Turns(env, ActiveNow(env, placed), StartBoard(env, placed), s)
  }

  /** A tick leaves a shard as its own turn does, and that turn finds it as the tick did. */
  lemma OwnTurn(env: Env, placed: Placed, s: ShardId)
    requires s < env.shardCount
    ensures var b := BoardAt(env, placed, s);
            var r := Turn(env, ActiveNow(env, placed), b, s).placed;
            && (s in b.placed <==> s in placed) && (s in placed ==> b.placed[s] == placed[s])
            && (s in Reconciled(env, placed) <==> s in r) && (s in r ==> Reconciled(env, placed)[s] == r[s])
  {
    var active, start := ActiveNow(env, placed), StartBoard(env, placed);
    hide Turn;
    B.TurnsTouchOnce(env, active, start, s, 0, s);
    B.TurnsTouchOnce(env, active, start, s, s + 1, env.shardCount);
  }

  /** A tick leaves alone what does not exist. */
  lemma Beyond(env: Env, placed: Placed, s: ShardId)
    requires s >= env.shardCount
    ensures s in Reconciled(env, placed) <==> s in placed
    ensures s in placed ==> Reconciled(env, placed)[s] == placed[s]
  {
    hide Turn;
    B.TurnsTouchOnce(env, ActiveNow(env, placed), StartBoard(env, placed), s, 0, env.shardCount);
  }

  // ---- incomplete membership --------------------------------------------

  /** Whatever else a tick does, it does not touch a shard one of whose replicas it has not heard from. */
  lemma UnknownStays(env: Env, placed: Placed, s: ShardId, n: NodeId)
    requires s in placed && n in placed[s].replicas && n !in env.nodes
    ensures s in Reconciled(env, placed) && Reconciled(env, placed)[s] == placed[s]
  {
    hide Reconciled, Turns, ActiveNow, StartBoard, Desired;
    if s < env.shardCount {
      OwnTurn(env, placed, s);
      var current := CurrentReplicas(env, BoardAt(env, placed, s).placed, s);
      assert current == placed[s].replicas;
      var i :| 0 <= i < |current| && current[i] == n;
    } else {
      Beyond(env, placed, s);
    }
  }

  predicate NotHeard(hs: seq<Happening>, n: NodeId) { forall i :: 0 <= i < |hs| ==> !(hs[i].Beats? && hs[i].id == n) }

  lemma StillUnknown(c: Setup, w: World, h: Happening, s: ShardId, n: NodeId)
    requires n !in w.nodes && !(h.Beats? && h.id == n) && s in w.placed && n in w.placed[s].replicas
    ensures var r := After(c, w, h); n !in r.nodes && s in r.placed && r.placed[s] == w.placed[s]
  {
    hide Reconciled, Sanitized;
    if h.Reconciles? {
      UnknownStays(EnvOf(c, w), w.placed, s, n);
    }
  }

  /**
   * After a failover nobody is known, and whatever happens next, no assignment changes
   * until every one of its replicas has been heard from again.
   */
  lemma {:induction false} FrozenUntilHeard(c: Setup, w: World, hs: seq<Happening>, s: ShardId, n: NodeId)
    requires s in w.placed && n in w.placed[s].replicas && NotHeard(hs, n)
    ensures var r := AfterAll(c, After(c, w, FailsOver), hs);
            n !in r.nodes && s in r.placed && r.placed[s] == w.placed[s]
  {
    hide After;
    if hs == [] {
      Failover(c, w);
    } else {
      var k := |hs| - 1;
      FrozenUntilHeard(c, w, hs[..k], s, n);
      StillUnknown(c, AfterAll(c, After(c, w, FailsOver), hs[..k]), hs[k], s, n);
    }
  }

  lemma Failover(c: Setup, w: World)
    ensures After(c, w, FailsOver).nodes == map[] && After(c, w, FailsOver).placed == w.placed
  {
  }

  // ---- when a shard is planned ------------------------------------------

  /** The replicas a tick starts from: the assignment's, or without one, what healthy nodes report to host. */
  ghost predicate StartsFrom(env: Env, placed: Placed, s: ShardId, current: seq<NodeId>) {
    if s in placed then current == placed[s].replicas
    else Distinct(current) && forall n :: n in current <==> n in env.nodes && env.nodes[n].health == Healthy
                                                            && s in env.nodes[n].hosted
  }

  /** All replicas are known, and there are enough active nodes for `rf`, or at least for as many as there are. */
  ghost predicate Plannable(env: Env, active: set<NodeId>, current: seq<NodeId>) {
    (forall n :: n in current ==> n in env.nodes) && (|active| >= env.rf || |active| >= |current|)
  }

  lemma {:induction false} HostingIs(nodes: Nodes, ids: seq<NodeId>, shard: ShardId, n: NodeId)
    requires Clean(nodes)
    ensures n in Hosting(nodes, ids, shard) <==>
            n in ids && n in nodes && nodes[n].health == Healthy && shard in nodes[n].hosted
  {
    if ids != [] {
      var m := ids[|ids| - 1];
      HostingIs(nodes, ids[..|ids| - 1], shard, n);
      if m in nodes && nodes[m].health == Healthy {
        CopiesAtMostOne(m, nodes[m].hosted, shard);
      }
    }
  }

  lemma StartsFromCurrent(env: Env, active: set<NodeId>, placed: Placed, s: ShardId, known: set<NodeId>)
    requires EnvOk(env, active) && AllFit(placed, known, env.rf)
    ensures StartsFrom(env, placed, s, CurrentReplicas(env, placed, s)) && Distinct(CurrentReplicas(env, placed, s))
  {
    CurrentDistinct(env, active, placed, s, known);
    if s !in placed {
      forall n ensures n in Hosting(env.nodes, env.ids, s) <==>
                       n in env.nodes && env.nodes[n].health == Healthy && s in env.nodes[n].hosted
      {
        HostingIs(env.nodes, env.ids, s, n);
        assert n in env.ids <==> n in Ids(env.ids);
      }
    }
  }

  ghost predicate Ready(env: Env, placed: Placed, known: set<NodeId>) {
    EnvOk(env, ActiveNow(env, placed)) && env.nodes.Keys <= known && AllFit(placed, known, env.rf)
  }

  /** The board at any turn is as fit as the placement the tick started with, and its leader counts are true. */
  lemma BoardOk(env: Env, placed: Placed, s: ShardId, known: set<NodeId>)
    requires Ready(env, placed, known) && s <= env.shardCount
    ensures AllFit(BoardAt(env, placed, s).placed, known, env.rf)
    ensures B.Counted(env, ActiveNow(env, placed), BoardAt(env, placed, s))
  {
    hide Turns, ActiveNow, AllFit, EnvOk;
    B.AlwaysCounted(env, ActiveNow(env, placed), placed, s, known);
  }

  lemma HeldExactly(env: Env, active: set<NodeId>, b: Board, s: ShardId, known: set<NodeId>)
    requires EnvOk(env, active) && AllFit(b.placed, known, env.rf)
    ensures Held(env, active, b, s) <==> !Plannable(env, active, CurrentReplicas(env, b.placed, s))
    ensures var r := Desired(env, active, b, s);
            Distinct(r) && Ids(r) <= active && |r| == Least(env.rf, |active|)
  {
    hide Desired, AllFit, EnvOk;
    DesiredSize(env, active, b, s, known);
    var current := CurrentReplicas(env, b.placed, s);
    if exists i :: 0 <= i < |current| && current[i] !in env.nodes {
      var i :| 0 <= i < |current| && current[i] !in env.nodes;
      assert current[i] in current;
    }
  }

  lemma DesiredSize(env: Env, active: set<NodeId>, b: Board, s: ShardId, known: set<NodeId>)
    requires EnvOk(env, active) && AllFit(b.placed, known, env.rf)
    ensures var r := Desired(env, active, b, s);
            Distinct(r) && Ids(r) <= active && |r| == Least(env.rf, |active|)
  {
    hide Plan, Kept, Domains;
    CurrentDistinct(env, active, b.placed, s, known);
    hide CurrentReplicas, AllFit, EnvOk;
    var pool := Candidates(env, active, b.load);
    assert pool.Keys == active && |pool| == |pool.Keys|;
    PlanContract(CurrentReplicas(env, b.placed, s), pool, env.rf);
  }

  /**
   * When a tick plans a shard, and how many replicas it then has: exactly when all its
   * replicas are known and there are active nodes for `rf`, or for as many as it has. Then
   * it has min(rf, active nodes) replicas, all active; otherwise it stays as it is.
   */
  lemma TickDecides(env: Env, placed: Placed, s: ShardId, known: set<NodeId>) returns (current: seq<NodeId>)
    requires Ready(env, placed, known) && s < env.shardCount
    ensures StartsFrom(env, placed, s, current)
    ensures var active, after := ActiveNow(env, placed), Reconciled(env, placed);
            if Plannable(env, active, current) then
              && (Least(env.rf, |active|) > 0 || s in placed ==> s in after)
              && (s in after ==> Distinct(after[s].replicas) && Ids(after[s].replicas) <= active
                                 && |after[s].replicas| == Least(env.rf, |active|))
            else (s in after <==> s in placed) && (s in placed ==> after[s] == placed[s])
  {
    hide Reconciled, Turns, ActiveNow, StartBoard, Desired, Held, LeaderFor, BumpAll, LowerAll, AllFit, EnvOk;
    var active, b := ActiveNow(env, placed), BoardAt(env, placed, s);
    OwnTurn(env, placed, s);
    BoardOk(env, placed, s, known);
    current := CurrentReplicas(env, b.placed, s);
    assert current == CurrentReplicas(env, placed, s);
    StartsFromCurrent(env, active, placed, s, known);
    HeldExactly(env, active, b, s, known);
  }

  // ---- where the replicas go --------------------------------------------

  /** The failure domains of some known nodes. */
  ghost function DomainsUsed(env: Env, ids: set<NodeId>): set<string> {
    set n | n in ids && n in env.nodes :: env.nodes[n].failureDomain
  }

  lemma PoolDomains(env: Env, active: set<NodeId>, load: map<NodeId, nat>, ids: set<NodeId>)
    requires active <= env.nodes.Keys && ids <= active
    ensures Domains(ids, Candidates(env, active, load)) == DomainsUsed(env, ids)
  {
    var pool := Candidates(env, active, load);
    assert forall n :: n in ids ==> n in pool && pool[n].domain == env.nodes[n].failureDomain;
  }

  /**
   * A tick that plans a shard gives up at most one of its active replicas, if they are not
   * too many already, keeps their failure domains in number, and uses one more for every
   * free place as long as the active nodes have one; a shard that starts from nothing uses
   * as many failure domains as it can.
   */
  lemma TickSpreads(env: Env, placed: Placed, s: ShardId, known: set<NodeId>) returns (current: seq<NodeId>)
    requires Ready(env, placed, known) && s < env.shardCount
    ensures StartsFrom(env, placed, s, current)
    ensures var active, after := ActiveNow(env, placed), Reconciled(env, placed);
            var survivors := Ids(current) * active;
            Plannable(env, active, current) && s in after ==>
              var used, all := DomainsUsed(env, survivors), DomainsUsed(env, active);
              var now := DomainsUsed(env, Ids(after[s].replicas));
              && (|survivors| <= env.rf ==> |survivors - Ids(after[s].replicas)| <= 1
                                            && |now| >= |used| + Least(env.rf - |survivors|, |all - used|))
              && (current == [] ==> |now| == Least(env.rf, |all|))
  {
    hide Reconciled, Turns, ActiveNow, StartBoard, Desired, Held, LeaderFor, BumpAll, LowerAll, AllFit, EnvOk,
         DomainsUsed;
    var active, b := ActiveNow(env, placed), BoardAt(env, placed, s);
    OwnTurn(env, placed, s);
    BoardOk(env, placed, s, known);
    current := CurrentReplicas(env, b.placed, s);
    assert current == CurrentReplicas(env, placed, s);
    StartsFromCurrent(env, active, placed, s, known);
    HeldExactly(env, active, b, s, known);
    DesiredSpreads(env, active, b, s);
  }

  lemma DesiredSpreads(env: Env, active: set<NodeId>, b: Board, s: ShardId)
    requires EnvOk(env, active) && Distinct(CurrentReplicas(env, b.placed, s))
    ensures var current, r := CurrentReplicas(env, b.placed, s), Desired(env, active, b, s);
            var survivors := Ids(current) * active;
            var used, all, now := DomainsUsed(env, survivors), DomainsUsed(env, active), DomainsUsed(env, Ids(r));
            && (|survivors| <= env.rf ==> |survivors - Ids(r)| <= 1
                                          && |now| >= |used| + Least(env.rf - |survivors|, |all - used|))
            && (current == [] ==> |now| == Least(env.rf, |all|))
  {
    hide Plan, DomainsUsed, Domains, Kept;
    var current := CurrentReplicas(env, b.placed, s);
    var pool := Candidates(env, active, b.load);
    assert pool.Keys == active;
    PlanContract(current, pool, env.rf);
    PlanSpreads(current, pool, env.rf);
    var r := Plan(current, pool, env.rf);
    KeptOk(current, pool);
    DistinctSize(Kept(current, pool));
    PoolDomains(env, active, b.load, Ids(current) * active);
    PoolDomains(env, active, b.load, active);
    PoolDomains(env, active, b.load, Ids(r));
  }

  // ---- who leads --------------------------------------------------------

  /** A replica as the choice of a leader sees it: its own fields, and how many other shards are to be led by it. */
  function Contender(env: Env, at: Placed, s: ShardId, n: NodeId): Q.LeaderSlot {
    var led := LeaderCount(at, n, env.shardCount);
    var own := if s in at && at[s].preferredLeader == Some(n) then 1 else 0;
    Q.LeaderSlot(n, if n in env.nodes then env.nodes[n].cloudProvider else "",
                 if n in env.nodes then env.nodes[n].region else "", if led < own then 0 else led - own)
  }

  /** The leader a shard is observed to have: a healthy node that reports leading it, if there is any. */
  ghost predicate Observed(env: Env, s: ShardId, n: Option<NodeId>) {
    if n.Some? then n.value in env.nodes && env.nodes[n.value].health == Healthy && s in env.nodes[n.value].leading
    else forall m :: m in env.nodes && env.nodes[m].health == Healthy ==> s !in env.nodes[m].leading
  }

  lemma {:induction false} LeadingIs(nodes: Nodes, ids: seq<NodeId>, s: ShardId)
    ensures var r := Leading(nodes, ids, s);
            if r.Some? then r.value in nodes && nodes[r.value].health == Healthy && s in nodes[r.value].leading
            else forall m :: m in ids && m in nodes && nodes[m].health == Healthy ==> s !in nodes[m].leading
  {
    if ids != [] {
      LeadingIs(nodes, ids[..|ids| - 1], s);
    }
  }

  lemma ObservedIs(env: Env, active: set<NodeId>, s: ShardId)
    requires EnvOk(env, active)
    ensures Observed(env, s, Leading(env.nodes, env.ids, s))
  {
    LeadingIs(env.nodes, env.ids, s);
    assert forall n :: n in env.ids <==> n in Ids(env.ids);
  }

  /** The leader wanted among the wanted replicas, by their own fields and true counts. */
  lemma WantedLeader(env: Env, active: set<NodeId>, b: Board, s: ShardId, desired: seq<NodeId>)
    requires B.Counted(env, active, b) && s < env.shardCount && Distinct(desired) && Ids(desired) <= active
    requires desired != []
    ensures var l := LeaderFor(env, active, WithoutOwn(b, s), desired, s);
            var slots := set n | n in desired :: Contender(env, b.placed, s, n);
            && l.Some? && l.value in desired
            && Q.Decided(PolicyOf(env, s), slots, Leading(env.nodes, env.ids, s), Contender(env, b.placed, s, l.value))
  {
    hide Q.BestSlot, Q.Decided, LeaderCount, Leading, PolicyOf, WithoutOwn, B.Counted;
    var others, observed, policy := WithoutOwn(b, s), Leading(env.nodes, env.ids, s), PolicyOf(env, s);
    var slots := LeaderSlots(env, desired, others);
    SlotsTrue(env, active, b, s, desired);
    assert forall i :: 0 <= i < |desired| ==> Q.Nodes(slots)[i] == desired[i];
    Q.PolicyDecides(policy, desired, active, slots, observed);
    Contenders(env, active, b, s, desired);
    var right := set n | n in desired :: Contender(env, b.placed, s, n);
    assert desired[0] in desired && Contender(env, b.placed, s, desired[0]) in right;
    var best := Q.BestSlot(policy, desired, active, slots, observed).value;
    Among(policy, right, observed, best);
    var n :| n in desired && best == Contender(env, b.placed, s, n);
    var i :| 0 <= i < |desired| && desired[i] == n;
    assert best.nodeId == n && n in Ids(desired);
  }

  lemma Among(policy: Option<Q.Policy>, slots: set<Q.LeaderSlot>, observed: Option<NodeId>, best: Q.LeaderSlot)
    requires Q.Decided(policy, slots, observed, best)
    ensures best in slots
  {
  }

  lemma SlotsTrue(env: Env, active: set<NodeId>, b: Board, s: ShardId, desired: seq<NodeId>)
    requires B.Counted(env, active, b) && s < env.shardCount && Ids(desired) <= active
    ensures var slots := LeaderSlots(env, desired, WithoutOwn(b, s));
            && |slots| == |desired|
            && forall i :: 0 <= i < |desired| ==> slots[i] == Contender(env, b.placed, s, desired[i])
  {
    hide LeaderCount, WithoutOwn;
    B.WithoutOwnCounts(env, active, b, s);
    forall i | 0 <= i < |desired|
      ensures SlotOf(env, desired[i], WithoutOwn(b, s)) == Contender(env, b.placed, s, desired[i])
    {
      assert desired[i] in Ids(desired);
    }
  }

  lemma Contenders(env: Env, active: set<NodeId>, b: Board, s: ShardId, desired: seq<NodeId>)
    requires B.Counted(env, active, b) && s < env.shardCount && Ids(desired) <= active
    ensures var slots := LeaderSlots(env, desired, WithoutOwn(b, s));
            (set x | x in slots && x.nodeId in active && x.nodeId in desired) ==
            (set n | n in desired :: Contender(env, b.placed, s, n))
  {
    hide LeaderCount, WithoutOwn, B.Counted, LeaderSlots;
    SlotsTrue(env, active, b, s, desired);
    var slots := LeaderSlots(env, desired, WithoutOwn(b, s));
    var left := set x | x in slots && x.nodeId in active && x.nodeId in desired;
    var right := set n | n in desired :: Contender(env, b.placed, s, n);
    forall x ensures x in left <==> x in right {
      if x in slots {
        var i :| 0 <= i < |slots| && slots[i] == x;
        assert x == Contender(env, b.placed, s, desired[i]) && desired[i] in desired;
      }
      if x in right {
        var n :| n in desired && Contender(env, b.placed, s, n) == x;
        var i :| 0 <= i < |desired| && desired[i] == n;
        assert slots[i] == x && x.nodeId == n && n in Ids(desired);
      }
    }
    assert left == right;
  }

  /**
   * The leader a tick asks for when it plans a shard: a replica in the policy's home region
   * if any replica is; among those, one of the preferred provider if any is; among those, one
   * that leads fewest other shards; among those the observed leader, else the lowest id. The
   * assignment carries the policy's wishes along.
   */
  lemma TickPrefers(env: Env, placed: Placed, s: ShardId, known: set<NodeId>)
    returns (current: seq<NodeId>, at: Placed, observed: Option<NodeId>)
    requires Ready(env, placed, known) && s < env.shardCount
    ensures StartsFrom(env, placed, s, current) && Observed(env, s, observed) && at == BoardAt(env, placed, s).placed
    ensures var after, policy := Reconciled(env, placed), PolicyOf(env, s);
            Plannable(env, ActiveNow(env, placed), current) && s in after ==>
              && after[s].preferredRegion == (if policy.Some? then policy.value.homeRegion else None)
              && after[s].preferredCloud == (if policy.Some? then policy.value.preferredCloud else None)
              && (after[s].preferredLeader.None? <==> after[s].replicas == [])
              && (after[s].replicas != [] ==>
                    after[s].preferredLeader.value in after[s].replicas
                    && Q.Decided(policy, set n | n in after[s].replicas :: Contender(env, at, s, n), observed,
                                 Contender(env, at, s, after[s].preferredLeader.value)))
  {
    hide Reconciled, Turns, ActiveNow, StartBoard, Desired, Held, LeaderFor, BumpAll, LowerAll, AllFit, EnvOk,
         Q.Decided, WithoutOwn, B.Counted;
    var active, b := ActiveNow(env, placed), BoardAt(env, placed, s);
    at := b.placed;
    OwnTurn(env, placed, s);
    BoardOk(env, placed, s, known);
    current := CurrentReplicas(env, b.placed, s);
    assert current == CurrentReplicas(env, placed, s);
    StartsFromCurrent(env, active, placed, s, known);
    HeldExactly(env, active, b, s, known);
    observed := Leading(env.nodes, env.ids, s);
    ObservedIs(env, active, s);
    var desired := Desired(env, active, b, s);
    B.NoLeaderNoReplicas(env, active, WithoutOwn(b, s), desired, s);
    if desired != [] {
      WantedLeader(env, active, b, s, desired);
    }
  }

  // ---- the failure detector ---------------------------------------------

  /** How long a node has been silent. */
  function Silent(n: NodeInfo, now: nat): nat { if now < n.lastSeen then 0 else now - n.lastSeen }

  /**
   * What a sweep decides: draining stays; what the oracle calls gone is dead, and what it
   * sees running is not, however silent; otherwise silence alone decides. Nothing else
   * about a node changes, and nobody leaves.
   */
  lemma SweepDecides(nodes: Nodes, now: nat, cfg: Timing, oracle: NodeId -> Liveness, id: NodeId)
    requires id in nodes
    ensures var r := Sweep(nodes, now, cfg, oracle);
            var was, becomes, silent := nodes[id], r[id].health, Silent(nodes[id], now);
            && r.Keys == nodes.Keys && r[id] == was.(health := becomes)
            && (becomes == Draining <==> was.health == Draining)
            && (was.health != Draining ==>
                  && (becomes == Dead <==> oracle(id) == Gone || (oracle(id) == Unknown && silent >= cfg.deadAfter))
                  && (becomes == Healthy <==>
                        oracle(id) != Gone && silent < cfg.deadAfter && silent < cfg.suspectAfter))
  {
  }

  // ---- active nodes -----------------------------------------------------

  function LoadOf(load: map<NodeId, nat>, n: NodeId): nat { if n in load then load[n] else 0 }

  lemma BusiestFirst(ns: set<NodeId>, load: map<NodeId, nat>, target: nat)
    requires target > 0 && ns != {}
    ensures var b := Busiest(load, ns);
            && b in ns && Active(ns, load, target) == {b} + Active(ns - {b}, load, target - 1)
            && forall y :: y in ns && y != b ==>
                 LoadOf(load, b) > LoadOf(load, y) || (LoadOf(load, b) == LoadOf(load, y) && Less(b, y))
  {
    hide Less;
    assert IsBusiest(load, ns, Busiest(load, ns));
  }

  /** The nodes of `ns` that are busier than `x`, or as busy with a lower id. */
  function Busier(ns: set<NodeId>, load: map<NodeId, nat>, x: NodeId): set<NodeId> {
    set y | y in ns && (LoadOf(load, y) > LoadOf(load, x) || (LoadOf(load, y) == LoadOf(load, x) && Less(y, x)))
  }

  lemma {:induction false} ActiveAreBusiest(ns: set<NodeId>, load: map<NodeId, nat>, target: nat, x: NodeId)
    requires x in ns
    ensures x in Active(ns, load, target) <==> |Busier(ns, load, x)| < target
    decreases target
  {
    NoneActive(ns, load, target);
    hide Active, Less, LoadOf, Busier;
    if target > 0 {
      BusiestFirst(ns, load, target);
      var b := Busiest(load, ns);
      if x == b {
        NoneBusier(ns, load, b);
      } else {
        ActiveAreBusiest(ns - {b}, load, target - 1, x);
        OneBusier(ns, load, b, x);
      }
    }
  }

  lemma OneBusier(ns: set<NodeId>, load: map<NodeId, nat>, b: NodeId, x: NodeId)
    requires b in ns && (LoadOf(load, b) > LoadOf(load, x) || (LoadOf(load, b) == LoadOf(load, x) && Less(b, x)))
    ensures |Busier(ns, load, x)| == |Busier(ns - {b}, load, x)| + 1
  {
    hide Less;
    assert Busier(ns, load, x) == Busier(ns - {b}, load, x) + {b};
  }

  lemma NoneBusier(ns: set<NodeId>, load: map<NodeId, nat>, b: NodeId)
    requires forall y :: y in ns && y != b ==>
               LoadOf(load, b) > LoadOf(load, y) || (LoadOf(load, b) == LoadOf(load, y) && Less(b, y))
    ensures Busier(ns, load, b) == {}
  {
    hide Less;
    forall y | y in ns ensures y !in Busier(ns, load, b) {
      LessTotal(y, b);
    }
  }

  lemma NoneActive(ns: set<NodeId>, load: map<NodeId, nat>, target: nat)
    ensures target == 0 || ns == {} ==> Active(ns, load, target) == {}
  {
  }

  /** The healthy nodes that have more replicas than `x`, or as many and a lower id. */
  function BusierHealthy(env: Env, placed: Placed, x: NodeId): set<NodeId> {
    var mine := ReplicaCount(placed, x, env.shardCount);
    set y | y in env.nodes && env.nodes[y].health == Healthy
            && (ReplicaCount(placed, y, env.shardCount) > mine
                || (ReplicaCount(placed, y, env.shardCount) == mine && Less(y, x)))
  }

  /**
   * A tick works with a node exactly if it is healthy and fewer than the target number of
   * healthy nodes have more replicas, or as many and a lower id.
   */
  lemma ActiveExactly(env: Env, placed: Placed, x: NodeId)
    ensures x in ActiveNow(env, placed) <==>
              x in env.nodes && env.nodes[x].health == Healthy && |BusierHealthy(env, placed, x)| < env.target
  {
    hide Active, Less, ReplicaCount;
    var healthy := HealthyIds(env.nodes);
    var load := Recount(placed, healthy, env.shardCount);
    if x in healthy {
      ActiveAreBusiest(healthy, load, env.target, x);
      forall y ensures y in Busier(healthy, load, x) <==> y in BusierHealthy(env, placed, x) {
      }
      assert Busier(healthy, load, x) == BusierHealthy(env, placed, x);
    }
  }

  // ---- leaving ----------------------------------------------------------

  /** A tick forgets a node exactly if it is drained, hosts nothing, and no assignment names it any more. */
  lemma LeavesExactly(c: Setup, w: World, n: NodeId)
    requires n in w.nodes
    ensures var r := After(c, w, Reconciles);
            && (n !in r.nodes <==>
                  w.nodes[n].health == Draining && w.nodes[n].hosted == []
                  && forall s :: s in r.placed ==> n !in r.placed[s].replicas)
            && (n in r.nodes ==> r.nodes[n] == w.nodes[n])
  {
    hide Reconciled;
  }

  lemma DrainsOn(c: Setup, w: World, h: Happening, n: NodeId)
    requires n in w.nodes && w.nodes[n].health == Draining && n in After(c, w, h).nodes
    ensures After(c, w, h).nodes[n].health == Draining
  {
    hide Reconciled, Sanitized, DomainOf, DomainFromParts;
  }

  /** Draining is never undone: as long as the node is in membership it stays so, whatever it reports. */
  lemma {:induction false} DrainStays(c: Setup, w: World, hs: seq<Happening>, n: NodeId)
    requires n in w.nodes && w.nodes[n].health == Draining && n in AfterAll(c, w, hs).nodes
    requires forall i :: 0 <= i < |hs| ==> n in AfterAll(c, w, hs[..i]).nodes
    ensures AfterAll(c, w, hs).nodes[n].health == Draining
  {
    hide After;
    if hs != [] {
      var k := |hs| - 1;
      assert forall i :: 0 <= i < k ==> hs[..k][..i] == hs[..i];
      DrainStays(c, w, hs[..k], n);
      DrainsOn(c, AfterAll(c, w, hs[..k]), hs[k], n);
    }
  }
}
