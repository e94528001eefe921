/**
 * One tick of the reconciler over the synchronous control plane, shard by shard,
 * and the membership operations around it.
 */
module SchedulerSpec {
  import opened Model
  import opened NodeOrder
  import opened PlanSpec
  import Q = Leadership

  datatype Health = Healthy | Suspect | Dead | Draining

  datatype NodeInfo = NodeInfo(address: string, health: Health, cloudProvider: string, region: string,
                               clusterId: string,
                               failureDomain: string, lastSeen: nat, hosted: seq<ShardId>, leading: seq<ShardId>,
                               lastSeq: nat)

  /** A heartbeat. */
  datatype Report = Report(address: string, cloudProvider: string, region: string, clusterId: string,
                           failureDomain: string, hosted: seq<ShardId>, leading: seq<ShardId>, seq_: nat)

  type Nodes = map<NodeId, NodeInfo>
  type Placed = map<ShardId, ShardAssignment>

  // ---- membership -------------------------------------------------------

  /** Keep what exists, without repeats; a node leads only what it hosts. */
  function Retain(shards: seq<ShardId>, allowed: ShardId -> bool): seq<ShardId> {
    if shards == [] then []
    else
      var kept := Retain(shards[..|shards| - 1], allowed);
      var last := shards[|shards| - 1];
      if allowed(last) && last !in kept then kept + [last] else kept
  }

  function Sanitized(r: Report, shardCount: nat): Report {
    var hosted := Retain(r.hosted, s => s < shardCount);
    r.(hosted := hosted, leading := Retain(r.leading, s => s in hosted))
  }

  function Or(given: string, otherwise: string): string { if given != "" then given else otherwise }

  /** Unicode white space. */
  predicate IsSpace(c: char) {
    || '\U{0009}' <= c <= '\U{000D}' || c == ' ' || c == '\U{0085}' || c == '\U{00A0}' || c == '\U{1680}'
    || '\U{2000}' <= c <= '\U{200A}' || c == '\U{2028}' || c == '\U{2029}' || c == '\U{202F}' || c == '\U{205F}'
    || c == '\U{3000}'
  }

  function Trim(s: string): string {
    if s == "" then ""
    else if IsSpace(s[0]) then Trim(s[1..])
    else if IsSpace(s[|s| - 1]) then Trim(s[..|s| - 1])
    else s
  }

  function Canonical(s: string): string { Q.Lower(Trim(s)) }

  function Slashed(a: string, b: string): string { if a == "" then b else if b == "" then a else a + "/" + b }

  /** Provider, region and cluster, as far as they are known. */
  function DomainFromParts(cloudProvider: string, region: string, clusterId: string, fallback: string): string {
    Or(Slashed(Slashed(Canonical(cloudProvider), Canonical(region)), Canonical(clusterId)), fallback)
  }

  /** The domain a report names, or else what its other fields add up to. */
  function DomainOf(r: Report): string {
    if Trim(r.failureDomain) != "" then Canonical(r.failureDomain)
    else DomainFromParts(r.cloudProvider, r.region, r.clusterId, "")
  }

  /** A node first heard of. */
  function Registered(now: nat, r: Report): NodeInfo {
    NodeInfo(r.address, Healthy, r.cloudProvider, r.region, r.clusterId, DomainOf(r), now, [], [], 0)
  }

  /** What is known of a node after a report: empty fields erase nothing, and draining is not undone. */
  function Refreshed(was: NodeInfo, id: NodeId, now: nat, r: Report): NodeInfo {
    var cloud, region := Or(r.cloudProvider, was.cloudProvider), Or(r.region, was.region);
    var cluster := Or(r.clusterId, was.clusterId);
    NodeInfo(Or(r.address, was.address), if was.health == Draining then Draining else Healthy, cloud, region, cluster,
             if r.failureDomain != "" then DomainOf(r)
                else Or(was.failureDomain, DomainFromParts(cloud, region, cluster, id)),
             now, r.hosted, r.leading, if was.lastSeq < r.seq_ then r.seq_ else was.lastSeq)
  }

  function Heartbeat(nodes: Nodes, id: NodeId, now: nat, r: Report): Nodes {
    if id in nodes && r.seq_ != 0 && r.seq_ <= nodes[id].lastSeq then nodes
    else nodes[id := Refreshed(if id in nodes then nodes[id] else Registered(now, r), id, now, r)]
  }

  function StartDraining(nodes: Nodes, id: NodeId): Nodes {
    if id in nodes then nodes[id := nodes[id].(health := Draining)] else nodes
  }

  datatype Liveness = Gone | Running | Unknown

  datatype Timing = Timing(suspectAfter: nat, deadAfter: nat)

  /** The verdict of silence, overruled by the outside oracle where it knows better. */
  function Judge(n: NodeInfo, now: nat, cfg: Timing, seen: Liveness): Health {
    if n.health == Draining then Draining
    else
      var silent := if now < n.lastSeen then 0 else now - n.lastSeen;
      var byTimeout := if silent >= cfg.deadAfter then Dead else if silent >= cfg.suspectAfter then Suspect
        else Healthy;
      match seen
      case Gone => Dead
      case Running => if byTimeout == Dead then Suspect else byTimeout
      case Unknown => byTimeout
  }

  function Sweep(nodes: Nodes, now: nat, cfg: Timing, oracle: NodeId -> Liveness): Nodes {
    map id | id in nodes :: nodes[id].(health := Judge(nodes[id], now, cfg, oracle(id)))
  }

  // ---- what a tick looks at ---------------------------------------------

  /** `ids` lists `s` in ascending order. */
  ghost predicate Lists(ids: seq<NodeId>, s: set<NodeId>) {
    (forall i, j :: 0 <= i < j < |ids| ==> Less(ids[i], ids[j])) && Ids(ids) == s
  }

  /** Everything that stays fixed during a tick. `ids` are the known nodes in ascending order. */
  datatype Env = Env(ids: seq<NodeId>, nodes: Nodes, policies: map<ShardId, Q.Policy>, rf: nat, target: nat,
                     shardCount: nat)

  function HealthyIds(nodes: Nodes): set<NodeId> { set n | n in nodes && nodes[n].health == Healthy }

  /** How often `n` is a replica of shards below `k`. */
  function ReplicaCount(placed: Placed, n: NodeId, k: nat): nat {
    if k == 0 then 0
    else ReplicaCount(placed, n, k - 1) + if k - 1 in placed then multiset(placed[k - 1].replicas)[n] else 0
  }

  /** How many shards below `k` want `n` as their leader. */
  function LeaderCount(placed: Placed, n: NodeId, k: nat): nat {
    if k == 0 then 0
    else LeaderCount(placed, n, k - 1) + if k - 1 in placed && placed[k - 1].preferredLeader == Some(n) then 1 else 0
  }

  function Recount(placed: Placed, ns: set<NodeId>, k: nat): map<NodeId, nat> {
    map n | n in ns :: ReplicaCount(placed, n, k)
  }

  function LeaderRecount(placed: Placed, ns: set<NodeId>, k: nat): map<NodeId, nat> {
    map n | n in ns :: LeaderCount(placed, n, k)
  }

  /** `x` stays active before `y`: the busier node, then the lower id. */
  predicate StaysBefore(load: map<NodeId, nat>, x: NodeId, y: NodeId) {
    var lx, ly := if x in load then load[x] else 0, if y in load then load[y] else 0;
    lx > ly || (lx == ly && Less(x, y))
  }

  ghost predicate IsBusiest(load: map<NodeId, nat>, ns: set<NodeId>, x: NodeId) {
    x in ns && forall y :: y in ns && y != x ==> StaysBefore(load, x, y)
  }

  lemma BusiestExists(load: map<NodeId, nat>, ns: set<NodeId>)
    requires ns != {}
    ensures exists x :: IsBusiest(load, ns, x)
  {
    var lt := (x: NodeId, y: NodeId) => StaysBefore(load, x, y);
    forall x, y, z | x in ns && y in ns && z in ns && lt(x, y) && lt(y, z) ensures lt(x, z) {
      if Less(x, y) && Less(y, z) { LessTransitive(x, y, z); }
    }
    forall x, y | x in ns && y in ns && x != y ensures lt(x, y) != lt(y, x) {
      LessTotal(x, y);
    }
    forall x | x in ns ensures !lt(x, x) {
      LessTotal(x, x);
    }
    LeastExists(ns, lt);
    var m :| m in ns && forall y :: y in ns && y != m ==> lt(m, y);
    assert IsBusiest(load, ns, m);
  }

  lemma BusiestUnique(load: map<NodeId, nat>, ns: set<NodeId>, x: NodeId, y: NodeId)
    requires IsBusiest(load, ns, x) && IsBusiest(load, ns, y)
    ensures x == y
  {
    LessTotal(x, y);
  }

  ghost function Busiest(load: map<NodeId, nat>, ns: set<NodeId>): (x: NodeId)
    requires ns != {}
    ensures IsBusiest(load, ns, x)
  {
    BusiestExists(load, ns);
    var x :| IsBusiest(load, ns, x);
    x
  }

  /** The `target` busiest of `ns`. */
  ghost function Active(ns: set<NodeId>, load: map<NodeId, nat>, target: nat): (r: set<NodeId>)
    ensures r <= ns && |r| == if |ns| < target then |ns| else target
    decreases target
  {
    if target == 0 || ns == {} then {}
    else
      var x := Busiest(load, ns);
      var rest := Active(ns - {x}, load, target - 1);
      {x} + rest
  }

  ghost function ActiveNow(env: Env, placed: Placed): set<NodeId> {
    Active(HealthyIds(env.nodes), Recount(placed, HealthyIds(env.nodes), env.shardCount), env.target)
  }

  /** `n` once for each time it reports hosting `shard`. */
  function Copies(n: NodeId, hosted: seq<ShardId>, shard: ShardId): seq<NodeId> {
    if hosted == [] then []
    else Copies(n, hosted[..|hosted| - 1], shard) + if hosted[|hosted| - 1] == shard then [n] else []
  }

  /** The healthy nodes among `ids` that report hosting `shard`. */
  function Hosting(nodes: Nodes, ids: seq<NodeId>, shard: ShardId): seq<NodeId> {
    if ids == [] then []
    else
      var n := ids[|ids| - 1];
      Hosting(nodes, ids[..|ids| - 1], shard) +
      if n in nodes && nodes[n].health == Healthy then Copies(n, nodes[n].hosted, shard) else []
  }

  /** The last healthy node among `ids` that reports leading `shard`. */
  function Leading(nodes: Nodes, ids: seq<NodeId>, shard: ShardId): Option<NodeId> {
    if ids == [] then None
    else
      var n := ids[|ids| - 1];
      if n in nodes && nodes[n].health == Healthy && shard in nodes[n].leading then Some(n)
      else Leading(nodes, ids[..|ids| - 1], shard)
  }

  // ---- one shard --------------------------------------------------------

  /** The map and the two counters a tick works on. */
  datatype Board = Board(placed: Placed, load: map<NodeId, nat>, leaderLoad: map<NodeId, nat>)

  function Bump(m: map<NodeId, nat>, n: NodeId): map<NodeId, nat> { if n in m then m[n := m[n] + 1] else m }

  function Lower(m: map<NodeId, nat>, n: NodeId): map<NodeId, nat> {
    if n in m then m[n := if m[n] == 0 then 0 else m[n] - 1] else m
  }

  function BumpAll(m: map<NodeId, nat>, ns: seq<NodeId>): map<NodeId, nat> {
    if ns == [] then m else Bump(BumpAll(m, ns[..|ns| - 1]), ns[|ns| - 1])
  }

  function LowerAll(m: map<NodeId, nat>, ns: seq<NodeId>): map<NodeId, nat> {
    if ns == [] then m else Lower(LowerAll(m, ns[..|ns| - 1]), ns[|ns| - 1])
  }

  function Get(m: map<NodeId, nat>, n: NodeId): nat { if n in m then m[n] else 0 }

  function Candidates(env: Env, active: set<NodeId>, load: map<NodeId, nat>): Pool {
    map n | n in active :: Slot(if n in env.nodes then env.nodes[n].failureDomain else "", Get(load, n))
  }

  function CurrentReplicas(env: Env, placed: Placed, shard: ShardId): seq<NodeId> {
    if shard in placed then placed[shard].replicas else Hosting(env.nodes, env.ids, shard)
  }

  /** Wanted replicas of `shard`. */
  ghost function Desired(env: Env, active: set<NodeId>, b: Board, shard: ShardId): seq<NodeId> {
    Plan(CurrentReplicas(env, b.placed, shard), Candidates(env, active, b.load), env.rf)
  }

  /** A shard is left alone while a replica is unknown, or while too few nodes are healthy to keep its size. */
  ghost predicate Held(env: Env, active: set<NodeId>, b: Board, shard: ShardId) {
    var current := CurrentReplicas(env, b.placed, shard);
    || (exists i :: 0 <= i < |current| && current[i] !in env.nodes)
    || (|active| < env.rf && |Desired(env, active, b, shard)| < |current| && |Desired(env, active, b, shard)| < env.rf)
  }

  function LeaderSlots(env: Env, desired: seq<NodeId>, leaderLoad: map<NodeId, nat>): seq<Q.LeaderSlot> {
    seq(|desired|, i requires 0 <= i < |desired| => SlotOf(env, desired[i], leaderLoad))
  }

  function SlotOf(env: Env, n: NodeId, leaderLoad: map<NodeId, nat>): Q.LeaderSlot {
    Q.LeaderSlot(n, if n in env.nodes then env.nodes[n].cloudProvider else "",
                 if n in env.nodes then env.nodes[n].region else "", Get(leaderLoad, n))
  }

  function PolicyOf(env: Env, shard: ShardId): Option<Q.Policy> {
    if shard in env.policies then Some(env.policies[shard]) else None
  }

  /** The leader counts without this shard's own leader. */
  function WithoutOwn(b: Board, shard: ShardId): map<NodeId, nat> {
    if shard in b.placed && b.placed[shard].preferredLeader.Some?
       then Lower(b.leaderLoad, b.placed[shard].preferredLeader.value)
    else b.leaderLoad
  }

  function LeaderFor(env: Env, active: set<NodeId>, leaderLoad: map<NodeId, nat>, desired: seq<NodeId>,
                     shard: ShardId): Option<NodeId> {
    var observed := Leading(env.nodes, env.ids, shard);
    var target := Q.PreferredLeaderForPolicy(PolicyOf(env, shard), desired, active,
                                             LeaderSlots(env, desired, leaderLoad), observed);
    Q.DesiredLeader(target, desired, active, observed)
  }

  function AssignmentFor(env: Env, desired: seq<NodeId>, leader: Option<NodeId>, shard: ShardId): ShardAssignment {
    var policy := PolicyOf(env, shard);
    ShardAssignment(shard, desired, leader, if policy.Some? then policy.value.homeRegion else None,
                    if policy.Some? then policy.value.preferredCloud else None)
  }

  /** One shard's turn. */
  ghost function Turn(env: Env, active: set<NodeId>, b: Board, shard: ShardId): Board {
    if Held(env, active, b, shard) then b
    else
      var current := CurrentReplicas(env, b.placed, shard);
      var desired := Desired(env, active, b, shard);
      var load := BumpAll(LowerAll(b.load, current), desired);
      var others := WithoutOwn(b, shard);
      var leader := LeaderFor(env, active, others, desired, shard);
      var leaderLoad := if leader.Some? then Bump(others, leader.value) else others;
      Board(if shard in b.placed || desired != [] then b.placed[shard := AssignmentFor(env, desired, leader, shard)]
            else b.placed,
            load, leaderLoad)
  }

  ghost function Turns(env: Env, active: set<NodeId>, b: Board, k: nat): Board {
    if k == 0 then b else Turn(env, active, Turns(env, active, b, k - 1), k - 1)
  }

  ghost function StartBoard(env: Env, placed: Placed): Board {
    var active := ActiveNow(env, placed);
    Board(placed, Recount(placed, active, env.shardCount), LeaderRecount(placed, active, env.shardCount))
  }

  /** The placement after a tick. */
  ghost function Reconciled(env: Env, placed: Placed): Placed {
    Turns(env, ActiveNow(env, placed), StartBoard(env, placed), env.shardCount).placed
  }

  predicate Assigned(placed: Placed, n: NodeId) {
    exists s :: s in placed && n in placed[s].replicas
  }

  /** The membership after a tick: drained nodes that hold nothing and are assigned nothing are forgotten. */
  ghost function Forgotten(nodes: Nodes, placed: Placed): Nodes {
    map n | n in nodes && !(nodes[n].health == Draining && nodes[n].hosted == [] && !Assigned(placed, n)) :: nodes[n]
  }
}
