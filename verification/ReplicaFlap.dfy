/**
 * A placement that never comes to rest: with one replica and two healthy nodes, every
 * tick moves the replica to the node that does not have it.
 */
module ReplicaFlap {
  import opened Model
  import opened PlanSpec
  import opened PlanProofs
  import opened SchedulerSpec
  import B = LeaderBalance

  /** The only shard, with `n` as its only replica and leader. */
  function Only(env: Env, n: NodeId): Placed { map[0 := AssignmentFor(env, [n], Some(n), 0)] }

  /** Two healthy nodes, one shard, one replica wanted, and both nodes may be used. */
  ghost predicate Pair(env: Env, a: NodeId, b: NodeId) {
    a != b && HealthyIds(env.nodes) == {a, b} && env.rf == 1 && env.target >= 2 && env.shardCount == 1
  }

  lemma BothActive(env: Env, a: NodeId, b: NodeId, placed: Placed)
    requires Pair(env, a, b)
    ensures ActiveNow(env, placed) == {a, b}
  {
    assert |{a, b}| == 2;
    SubsetSize(ActiveNow(env, placed), {a, b});
  }

  /** The node that has the replica carries one, the other none. */
  lemma Loads(env: Env, a: NodeId, b: NodeId)
    requires Pair(env, a, b)
    ensures var board := StartBoard(env, Only(env, a));
            board.placed == Only(env, a) && board.load == map[a := 1, b := 0]
  {
    BothActive(env, a, b, Only(env, a));
    hide ActiveNow;
    OneReplica(env, a, a);
    OneReplica(env, a, b);
    hide ReplicaCount;
  }

  lemma OneReplica(env: Env, a: NodeId, n: NodeId)
    ensures ReplicaCount(Only(env, a), n, 1) == if n == a then 1 else 0
  {
    assert multiset([a])[n] == if n == a then 1 else 0;
    assert ReplicaCount(Only(env, a), n, 0) == 0;
  }

  lemma LoneLeader(env: Env, n: NodeId, active: set<NodeId>, leaderLoad: map<NodeId, nat>)
    requires n in active
    ensures LeaderFor(env, active, leaderLoad, [n], 0) == Some(n)
  {
    hide Leading;
    var slots := LeaderSlots(env, [n], leaderLoad);
    assert slots == [SlotOf(env, n, leaderLoad)] && slots[..0] == [];
  }

  /** The planner wants the other node, and nothing holds the shard back. */
  lemma WantsOther(env: Env, a: NodeId, b: NodeId, board: Board)
    requires Pair(env, a, b) && board.placed == Only(env, a) && board.load == map[a := 1, b := 0]
    ensures Desired(env, {a, b}, board, 0) == [b] && !Held(env, {a, b}, board, 0)
  {
    hide Plan;
    var pool := Candidates(env, {a, b}, board.load);
    assert pool.Keys == {a, b};
    LoneReplicaMoves(a, b, pool);
    assert |{a, b}| == 2 && a in HealthyIds(env.nodes);
  }

  lemma TurnMoves(env: Env, a: NodeId, b: NodeId, board: Board)
    requires Pair(env, a, b) && board.placed == Only(env, a) && board.load == map[a := 1, b := 0]
    ensures Turn(env, {a, b}, board, 0).placed == Only(env, b)
  {
    hide Held, Desired, LeaderFor, LowerAll, BumpAll;
    WantsOther(env, a, b, board);
    LoneLeader(env, b, {a, b}, WithoutOwn(board, 0));
  }

  /** One tick moves the replica over. */
  lemma MovesOver(env: Env, a: NodeId, b: NodeId)
    requires Pair(env, a, b)
    ensures Reconciled(env, Only(env, a)) == Only(env, b)
  {
    hide ActiveNow, StartBoard, Turn, Only;
    BothActive(env, a, b, Only(env, a));
    Loads(env, a, b);
    var board := StartBoard(env, Only(env, a));
    TurnMoves(env, a, b, board);
    assert Turns(env, {a, b}, board, 0) == board;
    assert Turns(env, {a, b}, board, 1) == Turn(env, {a, b}, board, 0);
  }

  /** And so on for ever: after any number of ticks the replica is where it was, or at the other node, by turns. */
  lemma {:induction false} ReplicaFlaps(env: Env, a: NodeId, b: NodeId, k: nat)
    requires Pair(env, a, b)
    ensures B.Ticks(env, Only(env, a), k) == Only(env, if k % 2 == 0 then a else b) && Only(env, a) != Only(env, b)
  {
    hide Reconciled;
    assert Only(env, a)[0].replicas == [a] && Only(env, b)[0].replicas == [b];
    if k > 0 {
      ReplicaFlaps(env, a, b, k - 1);
      MovesOver(env, a, b);
      PairSwaps(env, a, b);
      MovesOver(env, b, a);
    }
  }

  lemma PairSwaps(env: Env, a: NodeId, b: NodeId)
    requires Pair(env, a, b)
    ensures Pair(env, b, a)
  {
    assert {a, b} == {b, a};
  }
}
