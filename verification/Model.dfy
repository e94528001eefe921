/** Shared control-plane values: node ids, commands and the replicated state they build. */
module Model {

  datatype Option<+T> = None | Some(value: T)

  /** A member's or data-plane node's stable id. */
  type NodeId = string

  type ShardId = nat

  /** Which nodes hold a shard, and who should lead it. */
  datatype ShardAssignment = ShardAssignment(
    shardId: ShardId,
    replicas: seq<NodeId>,
    preferredLeader: Option<NodeId>,
    preferredRegion: Option<string>,
    preferredCloud: Option<string>)

  datatype ScalePlan = ScalePlan(targetNodes: nat, replicationFactor: nat)

  /** The durable, replicated mutations. */
  datatype Command =
    | AssignShard(assignment: ShardAssignment)
    | SetScalePlan(plan: ScalePlan)
    | ForgetNode(node: NodeId)

  /** One log entry; `command` is `None` for the no-op of a fresh leader. */
  datatype Entry = Entry(term: nat, index: nat, command: Option<Command>)

  predicate Distinct(s: seq<NodeId>) { forall i, j :: 0 <= i < j < |s| ==> s[i] != s[j] }

  lemma SubsetSize<T>(a: set<T>, b: set<T>)
    requires a <= b
    ensures |a| <= |b|
    ensures |a| == |b| ==> a == b
  {
    assert b == a + (b - a);
    if |a| == |b| { assert b - a == {}; }
  }

  /** The replicated state machine: exactly what a Raft snapshot carries. */
  datatype Replicated = Replicated(placement: map<ShardId, ShardAssignment>, plan: ScalePlan)

  /**
   * The replicated effect of one command. `ForgetNode` only touches membership,
   * which is leader-local soft state and never part of a snapshot.
   */
  function Apply(st: Replicated, c: Command): Replicated {
    match c
    case AssignShard(a) => st.(placement := st.placement[a.shardId := a])
    case SetScalePlan(p) => st.(plan := p)
    case ForgetNode(_) => st
  }

  function ApplyEntry(st: Replicated, e: Entry): Replicated {
    match e.command
    case Some(c) => Apply(st, c)
    case None => st
  }

  /** The state after applying every entry of `log`, oldest first. */
  function Replay(st: Replicated, log: seq<Entry>): Replicated {
    if log == [] then st
    else ApplyEntry(Replay(st, log[..|log| - 1]), log[|log| - 1])
  }

  lemma {:induction false} ReplayConcat(st: Replicated, a: seq<Entry>, b: seq<Entry>)
    ensures Replay(st, a + b) == Replay(Replay(st, a), b)
  {
    if b == [] {
      assert a + b == a;
    } else {
      var ab := a + b;
      assert ab[..|ab| - 1] == a + b[..|b| - 1];
      ReplayConcat(st, a, b[..|b| - 1]);
    }
  }
}
