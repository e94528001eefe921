/**
 * Leader balancing as a best-response process: the counters kept during a tick
 * always equal a recount, every leader move lowers one potential, so ticks come to
 * rest, and at rest leaders are spread evenly.
 */
module LeaderBalance {
  import opened Model
  import opened NodeOrder
  import opened PlanSpec
  import opened PlanProofs
  import opened SchedulerSpec
  import opened ReplicaFloor
  import Q = Leadership

  // ---- the counters are a recount ---------------------------------------

  /** Changing one shard's assignment changes the counts of its old and its new leader. */
  lemma {:induction false} LeaderCountChange(placed: Placed, s: ShardId, a: ShardAssignment, n: NodeId, k: nat)
    ensures LeaderCount(placed[s := a], n, k) + (if s < k && s in placed
                                                 && placed[s].preferredLeader == Some(n) then 1 else 0) ==
            LeaderCount(placed, n, k) + (if s < k && a.preferredLeader == Some(n) then 1 else 0)
  {
    if k > 0 {
      LeaderCountChange(placed, s, a, n, k - 1);
    }
  }

  lemma {:induction false} LeaderCounted(placed: Placed, n: NodeId, s: ShardId, k: nat)
    requires s < k && s in placed && placed[s].preferredLeader == Some(n)
    ensures LeaderCount(placed, n, k) >= 1
  {
    if s < k - 1 {
      LeaderCounted(placed, n, s, k - 1);
    }
  }

  ghost predicate Counted(env: Env, active: set<NodeId>, b: Board) {
    b.leaderLoad == LeaderRecount(b.placed, active, env.shardCount)
  }

  /** Without its own leader, a shard sees the leaders of all other shards. */
  lemma WithoutOwnCounts(env: Env, active: set<NodeId>, b: Board, shard: ShardId)
    requires Counted(env, active, b) && shard < env.shardCount
    ensures var others := WithoutOwn(b, shard);
            && others.Keys == active
            && (forall n :: n in active ==>
                  others[n] == LeaderCount(b.placed, n, env.shardCount)
                               - if shard in b.placed && b.placed[shard].preferredLeader == Some(n) then 1 else 0)
  {
    if shard in b.placed && b.placed[shard].preferredLeader.Some? {
      LeaderCounted(b.placed, b.placed[shard].preferredLeader.value, shard, env.shardCount);
    }
  }

  /** The incremental leader counter equals a recount after every turn. */
  lemma TurnCounts(env: Env, active: set<NodeId>, b: Board, shard: ShardId, known: set<NodeId>)
    requires Counted(env, active, b) && shard < env.shardCount && AllFit(b.placed, known, env.rf)
    requires EnvOk(env, active)
    ensures Counted(env, active, Turn(env, active, b, shard))
  {
    hide Desired, Held, LeaderFor, BumpAll, LowerAll;
    if !Held(env, active, b, shard) {
      var desired := Desired(env, active, b, shard);
      var others := WithoutOwn(b, shard);
      WithoutOwnCounts(env, active, b, shard);
      DesiredFits(env, active, b, shard, known);
      LeaderFits(env, active, others, desired, shard);
      var leader := LeaderFor(env, active, others, desired, shard);
      NoLeaderNoReplicas(env, active, others, desired, shard);
      RecountChange(env, active, b, shard, AssignmentFor(env, desired, leader, shard), others);
    }
  }

  lemma NoLeaderNoReplicas(env: Env, active: set<NodeId>, leaderLoad: map<NodeId, nat>, desired: seq<NodeId>,
                           shard: ShardId)
    ensures desired == [] ==> LeaderFor(env, active, leaderLoad, desired, shard) == None
    ensures var l := LeaderFor(env, active, leaderLoad, desired, shard); l.Some? ==> l.value in active
  {
    var observed := Leading(env.nodes, env.ids, shard);
    var target := Q.PreferredLeaderForPolicy(PolicyOf(env, shard), desired, active,
                                             LeaderSlots(env, desired, leaderLoad), observed);
    Q.DesiredLeaderCanLead(target, desired, active, observed);
  }

  lemma RecountChange(env: Env, active: set<NodeId>, b: Board, shard: ShardId, a: ShardAssignment,
                      others: map<NodeId, nat>)
    requires shard < env.shardCount && others == WithoutOwn(b, shard) && Counted(env, active, b)
    requires a.preferredLeader.Some? ==> a.preferredLeader.value in active
    ensures (if a.preferredLeader.Some? then Bump(others, a.preferredLeader.value) else others) ==
            LeaderRecount(b.placed[shard := a], active, env.shardCount)
    ensures shard !in b.placed && a.preferredLeader == None ==>
            others == LeaderRecount(b.placed, active, env.shardCount)
  {
    WithoutOwnCounts(env, active, b, shard);
    forall n | n in active
      ensures Get(if a.preferredLeader.Some? then Bump(others, a.preferredLeader.value) else others, n) ==
              LeaderCount(b.placed[shard := a], n, env.shardCount)
    {
      LeaderCountChange(b.placed, shard, a, n, env.shardCount);
    }
  }

  /** At every point of a tick the leader counter equals a recount. */
  lemma {:induction false} AlwaysCounted(env: Env, active: set<NodeId>, placed: Placed, k: nat,
                                         known: set<NodeId>)
    requires EnvOk(env, active) && env.nodes.Keys <= known && AllFit(placed, known, env.rf)
    requires k <= env.shardCount
    ensures var b := Board(placed, Recount(placed, active, env.shardCount),
                           LeaderRecount(placed, active, env.shardCount));
            Counted(env, active, Turns(env, active, b, k))
              && AllFit(Turns(env, active, b, k).placed, known, env.rf)
  {
    hide Turn;
    var b := Board(placed, Recount(placed, active, env.shardCount), LeaderRecount(placed, active, env.shardCount));
    TurnsFit(env, active, b, k, known);
    if k > 0 {
      AlwaysCounted(env, active, placed, k - 1, known);
      TurnCounts(env, active, Turns(env, active, b, k - 1), k - 1, known);
    }
  }

  // ---- the potential ----------------------------------------------------

  /** How far a leader is from what the shard's policy asks for. */
  function Miss(env: Env, shard: ShardId, n: NodeId): nat {
    var slot := SlotOf(env, n, map[]);
    2 * Q.RegionMiss(PolicyOf(env, shard), slot) + Q.CloudMiss(PolicyOf(env, shard), slot)
  }

  /** How many known nodes the tie-break would put before `n`. */
  function Rank(env: Env, shard: ShardId, n: NodeId): nat {
    |set m | m in env.nodes && Q.TieBefore(Leading(env.nodes, env.ids, shard), m, n)|
  }

  function MissOf(env: Env, shard: ShardId, leader: Option<NodeId>): nat {
    if leader.Some? then Miss(env, shard, leader.value) else 0
  }

  function RankOf(env: Env, shard: ShardId, leader: Option<NodeId>): nat {
    if leader.Some? then Rank(env, shard, leader.value) else 0
  }

  function MissSum(env: Env, placed: Placed, k: nat): nat {
    if k == 0 then 0
    else MissSum(env, placed, k - 1) +
         if k - 1 in placed then MissOf(env, k - 1, placed[k - 1].preferredLeader) else 0
  }

  function RankSum(env: Env, placed: Placed, k: nat): nat {
    if k == 0 then 0
    else RankSum(env, placed, k - 1) +
         if k - 1 in placed then RankOf(env, k - 1, placed[k - 1].preferredLeader) else 0
  }

  /** Sum of squares of what `m` has for the nodes of `ids`. */
  function Squares(m: map<NodeId, nat>, ids: seq<NodeId>): nat {
    if ids == [] then 0 else Squares(m, ids[..|ids| - 1]) + Get(m, ids[|ids| - 1]) * Get(m, ids[|ids| - 1])
  }

  function SquareSum(env: Env, active: set<NodeId>, placed: Placed): nat {
    Squares(LeaderRecount(placed, active, env.shardCount), env.ids)
  }

  /** Policy mismatch first, then leader load, then the tie-break. */
  ghost predicate LowerPotential(env: Env, active: set<NodeId>, after: Placed, before: Placed) {
    var k := env.shardCount;
    || MissSum(env, after, k) < MissSum(env, before, k)
    || (MissSum(env, after, k) == MissSum(env, before, k)
        && (SquareSum(env, active, after) < SquareSum(env, active, before)
            || (SquareSum(env, active, after) == SquareSum(env, active, before)
                && RankSum(env, after, k) < RankSum(env, before, k))))
  }

  ghost predicate SamePotential(env: Env, active: set<NodeId>, after: Placed, before: Placed) {
    && MissSum(env, after, env.shardCount) == MissSum(env, before, env.shardCount)
    && SquareSum(env, active, after) == SquareSum(env, active, before)
    && RankSum(env, after, env.shardCount) == RankSum(env, before, env.shardCount)
  }

  lemma {:induction false} SumsChange(env: Env, placed: Placed, s: ShardId, a: ShardAssignment, k: nat)
    requires s in placed
    ensures MissSum(env, placed[s := a], k) + (if s < k then MissOf(env, s, placed[s].preferredLeader) else 0) ==
            MissSum(env, placed, k) + (if s < k then MissOf(env, s, a.preferredLeader) else 0)
    ensures RankSum(env, placed[s := a], k) + (if s < k then RankOf(env, s, placed[s].preferredLeader) else 0) ==
            RankSum(env, placed, k) + (if s < k then RankOf(env, s, a.preferredLeader) else 0)
  {
    hide MissOf, RankOf;
    if k > 0 {
      SumsChange(env, placed, s, a, k - 1);
    }
  }

  lemma {:induction false} SquaresUpdate(m: map<NodeId, nat>, ids: seq<NodeId>, x: NodeId, v: nat)
    requires Distinct(ids)
    ensures Squares(m[x := v], ids) == Squares(m, ids) + if x in ids then v * v - Get(m, x) * Get(m, x) else 0
  {
    if ids != [] {
      var k := |ids| - 1;
      SquaresUpdate(m, ids[..k], x, v);
      assert x in ids <==> x in ids[..k] || x == ids[k];
    }
  }

  /** Moving one leader from `l` to `n`: the squares change by twice the difference of the other loads. */
  lemma MoveSquares(m: map<NodeId, nat>, ids: seq<NodeId>, l: NodeId, n: NodeId)
    requires Distinct(ids) && l in ids && n in ids && l != n && l in m && n in m && m[l] >= 1
    ensures Squares(m[l := m[l] - 1][n := m[n] + 1], ids) + 2 * (m[l] - 1) == Squares(m, ids) + 2 * m[n]
  {
    SquaresUpdate(m, ids, l, m[l] - 1);
    SquaresUpdate(m[l := m[l] - 1], ids, n, m[n] + 1);
  }

  lemma RankLower(env: Env, shard: ShardId, n: NodeId, l: NodeId)
    requires n in env.nodes && Q.TieBefore(Leading(env.nodes, env.ids, shard), n, l)
    ensures Rank(env, shard, n) < Rank(env, shard, l)
  {
    var o := Leading(env.nodes, env.ids, shard);
    var a := set m | m in env.nodes && Q.TieBefore(o, m, n);
    var b := set m | m in env.nodes && Q.TieBefore(o, m, l);
    forall m | m in a ensures m in b {
      Q.TieTransitive(o, m, n, l);
    }
    Q.TieTotal(o, n, n);
    assert n in b && n !in a;
    SubsetSize(a + {n}, b);
  }

  /** A leader that is not the best slot loses to one that comes before it. */
  lemma BetterLeader(env: Env, active: set<NodeId>, others: map<NodeId, nat>, replicas: seq<NodeId>, shard: ShardId,
                     l: NodeId)
    returns (n: NodeId)
    requires Distinct(replicas) && Ids(replicas) <= active && l in replicas
    ensures LeaderFor(env, active, others, replicas, shard) == Some(n) && n in replicas
    ensures n == l || Q.Before(PolicyOf(env, shard), Leading(env.nodes, env.ids, shard), SlotOf(env, n, others),
                               SlotOf(env, l, others))
  {
    var policy, observed := PolicyOf(env, shard), Leading(env.nodes, env.ids, shard);
    var slots := LeaderSlots(env, replicas, others);
    hide Q.Before;
    Q.BestSlotIsBest(policy, replicas, active, slots, observed);
    var i :| 0 <= i < |replicas| && replicas[i] == l;
    assert slots[i] == SlotOf(env, l, others) && l in Ids(replicas);
    assert Q.Eligible(slots[i], replicas, active);
    var best := Q.BestSlot(policy, replicas, active, slots, observed).value;
    n := best.nodeId;
    var j :| 0 <= j < |slots| && slots[j] == best;
    assert best == SlotOf(env, n, others);
  }

  /**
   * One turn that leaves the replicas alone: the leader stays and so does the potential, or it
   * moves and the potential falls.
   */
  lemma TurnDescends(env: Env, active: set<NodeId>, b: Board, shard: ShardId)
    requires EnvOk(env, active) && AllFit(b.placed, env.nodes.Keys, env.rf) && Counted(env, active, b)
             && shard < env.shardCount
    requires shard in b.placed && !Held(env, active, b, shard)
             && Desired(env, active, b, shard) == b.placed[shard].replicas
    ensures var r := Turn(env, active, b, shard);
            && r.placed.Keys == b.placed.Keys
            && (if r.placed[shard].preferredLeader == b.placed[shard].preferredLeader
                then SamePotential(env, active, r.placed, b.placed)
                else LowerPotential(env, active, r.placed, b.placed))
  {
    hide Desired, Held, LeaderFor, BumpAll, LowerAll, LowerPotential, SamePotential;
    var replicas := b.placed[shard].replicas;
    DesiredFits(env, active, b, shard, env.nodes.Keys);
    var others := WithoutOwn(b, shard);
    if replicas == [] {
      NoLeaderNoReplicas(env, active, others, replicas, shard);
      assert b.placed[shard].preferredLeader.None?;
      SameLeaderSamePotential(env, active, b, shard, AssignmentFor(env, replicas, None, shard));
      return;
    }
    var l := b.placed[shard].preferredLeader.value;
    var n := BetterLeader(env, active, others, replicas, shard, l);
    var a := AssignmentFor(env, replicas, Some(n), shard);
    assert Turn(env, active, b, shard).placed == b.placed[shard := a];
    assert l in Ids(replicas) && n in Ids(replicas);
    if n == l {
      SameLeaderSamePotential(env, active, b, shard, a);
    } else {
      MoveLowers(env, active, b, shard, a, l, n);
    }
  }

  lemma SameLeaderSamePotential(env: Env, active: set<NodeId>, b: Board, shard: ShardId, a: ShardAssignment)
    requires shard in b.placed && a.preferredLeader == b.placed[shard].preferredLeader
    ensures SamePotential(env, active, b.placed[shard := a], b.placed)
  {
    hide MissOf, RankOf, MissSum, RankSum;
    SumsChange(env, b.placed, shard, a, env.shardCount);
    forall n ensures LeaderCount(b.placed[shard := a], n, env.shardCount) == LeaderCount(b.placed, n, env.shardCount) {
      LeaderCountChange(b.placed, shard, a, n, env.shardCount);
    }
    assert LeaderRecount(b.placed[shard := a], active, env.shardCount) ==
           LeaderRecount(b.placed, active, env.shardCount);
  }

  lemma MoveLowers(env: Env, active: set<NodeId>, b: Board, shard: ShardId, a: ShardAssignment, l: NodeId, n: NodeId)
    requires EnvOk(env, active) && Counted(env, active, b) && shard < env.shardCount && shard in b.placed
    requires b.placed[shard].preferredLeader == Some(l) && a.preferredLeader == Some(n) && l != n && l in active
             && n in active
    requires var others := WithoutOwn(b, shard);
             Q.Before(PolicyOf(env, shard), Leading(env.nodes, env.ids, shard), SlotOf(env, n, others),
                      SlotOf(env, l, others))
    ensures LowerPotential(env, active, b.placed[shard := a], b.placed)
  {
    hide Rank, MissSum, RankSum, Squares, Leading, Q.RegionMiss, Q.CloudMiss;
    var others := WithoutOwn(b, shard);
    WithoutOwnCounts(env, active, b, shard);
    SumsChange(env, b.placed, shard, a, env.shardCount);
    SlotMisses(env, shard, n, others);
    SlotMisses(env, shard, l, others);
    SquaresMoved(env, active, b, shard, a, l, n);
    if Q.TieBefore(Leading(env.nodes, env.ids, shard), n, l) {
      RankLower(env, shard, n, l);
    }
  }

  lemma SlotMisses(env: Env, shard: ShardId, n: NodeId, others: map<NodeId, nat>)
    ensures Miss(env, shard, n) == 2 * Q.RegionMiss(PolicyOf(env, shard), SlotOf(env, n, others))
                                   + Q.CloudMiss(PolicyOf(env, shard), SlotOf(env, n, others))
    ensures Q.RegionMiss(PolicyOf(env, shard), SlotOf(env, n, others)) <= 1
    ensures Q.CloudMiss(PolicyOf(env, shard), SlotOf(env, n, others)) <= 1
  {
  }

  lemma SquaresMoved(env: Env, active: set<NodeId>, b: Board, shard: ShardId, a: ShardAssignment, l: NodeId, n: NodeId)
    requires EnvOk(env, active) && Counted(env, active, b) && shard < env.shardCount && shard in b.placed
    requires b.placed[shard].preferredLeader == Some(l) && a.preferredLeader == Some(n) && l != n && l in active
             && n in active
    ensures var others := WithoutOwn(b, shard);
            l in others && n in others &&
            SquareSum(env, active, b.placed[shard := a]) + 2 * others[l] ==
              SquareSum(env, active, b.placed) + 2 * others[n]
  {
    WithoutOwnCounts(env, active, b, shard);
    var m := LeaderRecount(b.placed, active, env.shardCount);
    var after := LeaderRecount(b.placed[shard := a], active, env.shardCount);
    LeaderCounted(b.placed, l, shard, env.shardCount);
    assert after == m[l := m[l] - 1][n := m[n] + 1] by {
      forall x | x in active ensures after[x] == m[l := m[l] - 1][n := m[n] + 1][x] {
        LeaderCountChange(b.placed, shard, a, x, env.shardCount);
      }
    }
    assert l in env.nodes && n in env.nodes;
    assert l in Ids(env.ids) && n in Ids(env.ids);
    MoveSquares(m, env.ids, l, n);
  }

  // ---- whole ticks ------------------------------------------------------

  ghost predicate SameReplicas(a: Placed, b: Placed) {
    a.Keys == b.Keys && forall s :: s in a ==> a[s].replicas == b[s].replicas
  }

  ghost predicate SameLeaders(a: Placed, b: Placed) {
    a.Keys == b.Keys && forall s :: s in a ==> a[s].preferredLeader == b[s].preferredLeader
  }

  lemma TurnTouchesOwn(env: Env, active: set<NodeId>, b: Board, shard: ShardId, s: ShardId)
    requires s != shard
    ensures var r := Turn(env, active, b, shard).placed;
            (s in r <==> s in b.placed) && (s in r ==> r[s] == b.placed[s])
  {
    hide Desired, Held, LeaderFor, BumpAll, LowerAll;
  }

  /** A shard is as it was until its turn, and stays as its turn left it. */
  lemma {:induction false} TurnsTouchOnce(env: Env, active: set<NodeId>, b: Board, s: ShardId, j: nat, k: nat)
    requires j <= k && (k <= s || s < j)
    ensures var x, y := Turns(env, active, b, j).placed, Turns(env, active, b, k).placed;
            (s in x <==> s in y) && (s in x ==> x[s] == y[s])
    decreases k
  {
    hide Turn;
    if j < k {
      TurnsTouchOnce(env, active, b, s, j, k - 1);
      TurnTouchesOwn(env, active, Turns(env, active, b, k - 1), k - 1, s);
    }
  }

  /** If a tick leaves the replicas alone, so does each of its turns. */
  lemma CalmTurns(env: Env, active: set<NodeId>, b: Board, k: nat, j: nat)
    requires j < k && SameReplicas(b.placed, Turns(env, active, b, k).placed)
    ensures SameReplicas(Turns(env, active, b, j).placed, Turns(env, active, b, j + 1).placed)
  {
    hide Turns;
    var x, y := Turns(env, active, b, j).placed, Turns(env, active, b, j + 1).placed;
    NoTurns(env, active, b);
    forall s ensures (s in x <==> s in y) && (s in x ==> x[s].replicas == y[s].replicas) {
      if s == j {
        TurnsTouchOnce(env, active, b, s, 0, j);
        TurnsTouchOnce(env, active, b, s, j + 1, k);
      } else {
        TurnsTouchOnce(env, active, b, s, j, j + 1);
      }
    }
  }

  lemma NoTurns(env: Env, active: set<NodeId>, b: Board)
    ensures Turns(env, active, b, 0) == b
  {
  }

  /** The potential after a calm turn. */
  lemma CalmTurn(env: Env, active: set<NodeId>, b: Board, shard: ShardId)
    requires EnvOk(env, active) && AllFit(b.placed, env.nodes.Keys, env.rf) && Counted(env, active, b)
             && shard < env.shardCount
    requires SameReplicas(b.placed, Turn(env, active, b, shard).placed)
    ensures var r := Turn(env, active, b, shard).placed;
            (SameLeaders(b.placed, r) && SamePotential(env, active, r, b.placed))
              || LowerPotential(env, active, r, b.placed)
  {
    hide Desired, Held, LeaderFor, BumpAll, LowerAll, LowerPotential;
    if !Held(env, active, b, shard) && shard in b.placed {
      TurnDescends(env, active, b, shard);
      forall s | s != shard && s in b.placed ensures Turn(env, active, b, shard).placed[s] == b.placed[s] {
        TurnTouchesOwn(env, active, b, shard, s);
      }
    }
  }

  lemma {:induction false} CalmTick(env: Env, active: set<NodeId>, placed: Placed, k: nat, j: nat)
    requires EnvOk(env, active) && AllFit(placed, env.nodes.Keys, env.rf) && j <= k <= env.shardCount
    requires var b := Board(placed, Recount(placed, active, env.shardCount),
                            LeaderRecount(placed, active, env.shardCount));
             SameReplicas(placed, Turns(env, active, b, k).placed)
    ensures var b := Board(placed, Recount(placed, active, env.shardCount),
                           LeaderRecount(placed, active, env.shardCount));
            var r := Turns(env, active, b, j).placed;
            (SameLeaders(placed, r) && SamePotential(env, active, r, placed)) || LowerPotential(env, active, r, placed)
    decreases j
  {
    hide Turn, EnvOk, AllFit, Counted;
    var b := Board(placed, Recount(placed, active, env.shardCount), LeaderRecount(placed, active, env.shardCount));
    if j > 0 {
      CalmTick(env, active, placed, k, j - 1);
      AlwaysCounted(env, active, placed, j - 1, env.nodes.Keys);
      CalmTurns(env, active, b, k, j - 1);
      CalmTurn(env, active, Turns(env, active, b, j - 1), j - 1);
    }
  }

  /** A tick that changes no replicas moves no leader, or lowers the potential. */
  lemma TickDescends(env: Env, placed: Placed)
    requires EnvOk(env, ActiveNow(env, placed)) && AllFit(placed, env.nodes.Keys, env.rf)
    requires SameReplicas(placed, Reconciled(env, placed))
    ensures SameLeaders(placed, Reconciled(env, placed))
            || LowerPotential(env, ActiveNow(env, placed), Reconciled(env, placed), placed)
  {
    hide Turns, EnvOk, AllFit, LowerPotential;
    CalmTick(env, ActiveNow(env, placed), placed, env.shardCount, env.shardCount);
  }

  ghost function Ticks(env: Env, placed: Placed, n: nat): Placed {
    if n == 0 then placed else Reconciled(env, Ticks(env, placed, n - 1))
  }

  lemma {:induction false} TicksShift(env: Env, placed: Placed, n: nat)
    ensures Ticks(env, placed, n + 1) == Ticks(env, Reconciled(env, placed), n)
  {
    hide Reconciled;
    if n > 0 {
      TicksShift(env, placed, n - 1);
    } else {
      assert Ticks(env, placed, 0) == placed;
    }
  }

  lemma {:induction false} ReplicaCountSame(a: Placed, b: Placed, n: NodeId, k: nat)
    requires SameReplicas(a, b)
    ensures ReplicaCount(a, n, k) == ReplicaCount(b, n, k)
  {
    if k > 0 {
      ReplicaCountSame(a, b, n, k - 1);
    }
  }

  lemma ActiveSame(env: Env, a: Placed, b: Placed)
    requires SameReplicas(a, b)
    ensures ActiveNow(env, a) == ActiveNow(env, b)
  {
    hide Active;
    forall n | n in HealthyIds(env.nodes)
      ensures ReplicaCount(a, n, env.shardCount) == ReplicaCount(b, n, env.shardCount)
    {
      ReplicaCountSame(a, b, n, env.shardCount);
    }
    assert Recount(a, HealthyIds(env.nodes), env.shardCount) == Recount(b, HealthyIds(env.nodes), env.shardCount);
  }

  lemma ReconciledFits(env: Env, placed: Placed)
    requires EnvOk(env, ActiveNow(env, placed)) && AllFit(placed, env.nodes.Keys, env.rf)
    ensures AllFit(Reconciled(env, placed), env.nodes.Keys, env.rf)
  {
    hide Turns;
    TurnsFit(env, ActiveNow(env, placed), StartBoard(env, placed), env.shardCount, env.nodes.Keys);
  }

  /**
   * Leader balancing terminates: with nodes, observations and policies fixed,
   * repeated ticks come to one that moves no leader, unless one of them changes a
   * replica set first.
   */
  lemma {:induction false} LeadersComeToRest(env: Env, placed: Placed) returns (n: nat)
    requires EnvOk(env, ActiveNow(env, placed)) && AllFit(placed, env.nodes.Keys, env.rf)
    ensures forall m: nat :: m < n ==> SameReplicas(Ticks(env, placed, m), Ticks(env, placed, m + 1))
    ensures SameLeaders(Ticks(env, placed, n), Ticks(env, placed, n + 1))
            || !SameReplicas(Ticks(env, placed, n), Ticks(env, placed, n + 1))
    decreases MissSum(env, placed, env.shardCount), SquareSum(env, ActiveNow(env, placed), placed),
              RankSum(env, placed, env.shardCount)
  {
    hide Reconciled, EnvOk, AllFit, ActiveNow, MissSum, RankSum, SquareSum;
    var next := Reconciled(env, placed);
    assert Ticks(env, placed, 0) == placed && Ticks(env, placed, 1) == next;
    n := 0;
    if SameReplicas(placed, next) && !SameLeaders(placed, next) {
      TickDescends(env, placed);
      ActiveSame(env, placed, next);
      ReconciledFits(env, placed);
      var m := LeadersComeToRest(env, next);
      n := m + 1;
      TicksShift(env, placed, m);
      TicksShift(env, placed, m + 1);
      forall j: nat | j < n ensures SameReplicas(Ticks(env, placed, j), Ticks(env, placed, j + 1)) {
        if j > 0 {
          TicksShift(env, placed, j - 1);
          TicksShift(env, placed, j);
        }
      }
    }
  }

  // ---- at rest ----------------------------------------------------------

  /** Every shard is placed on the same active nodes and no policy distinguishes any of them. */
  ghost predicate Uniform(env: Env, active: set<NodeId>, placed: Placed, r: set<NodeId>) {
    && env.policies == map[] && r <= active
    && (forall s :: s in placed ==> Ids(placed[s].replicas) == r)
  }

  /** The planner keeps the size of a set of candidates. */
  lemma SizeKept(current: seq<NodeId>, pool: Pool, rf: nat)
    requires Distinct(current) && Ids(current) <= pool.Keys && |current| <= rf
    ensures |Plan(current, pool, rf)| >= |current|
  {
    hide Plan, Kept, Filled, Spread;
    PlanContract(current, pool, rf);
    DistinctSize(current);
    SubsetSize(Ids(current), pool.Keys);
    assert |pool| == |pool.Keys|;
  }

  /** A shard whose replicas are all active is never held. */
  lemma ActiveNotHeld(env: Env, active: set<NodeId>, b: Board, shard: ShardId)
    requires active <= env.nodes.Keys && AllFit(b.placed, env.nodes.Keys, env.rf)
    requires shard in b.placed && Ids(b.placed[shard].replicas) <= active
    ensures !Held(env, active, b, shard)
  {
    hide Plan;
    var current := b.placed[shard].replicas;
    SizeKept(current, Candidates(env, active, b.load), env.rf);
    assert forall i :: 0 <= i < |current| ==> current[i] in Ids(current);
  }

  lemma {:induction false} LeaderCountSame(a: Placed, b: Placed, n: NodeId, k: nat)
    requires SameLeaders(a, b)
    ensures LeaderCount(a, n, k) == LeaderCount(b, n, k)
  {
    if k > 0 {
      LeaderCountSame(a, b, n, k - 1);
    }
  }

  lemma {:induction false} SomeShardLed(placed: Placed, n: NodeId, k: nat) returns (s: ShardId)
    requires LeaderCount(placed, n, k) > 0
    ensures s < k && s in placed && placed[s].preferredLeader == Some(n)
  {
    if k - 1 in placed && placed[k - 1].preferredLeader == Some(n) {
      s := k - 1;
    } else {
      s := SomeShardLed(placed, n, k - 1);
    }
  }

  lemma {:induction false} RestingTurns(env: Env, active: set<NodeId>, b: Board, k: nat, j: nat)
    requires j <= k && SameReplicas(b.placed, Turns(env, active, b, k).placed)
             && SameLeaders(b.placed, Turns(env, active, b, k).placed)
    ensures SameReplicas(b.placed, Turns(env, active, b, j).placed)
            && SameLeaders(b.placed, Turns(env, active, b, j).placed)
  {
    hide Turns;
    var x := Turns(env, active, b, j).placed;
    NoTurns(env, active, b);
    forall s: ShardId
      ensures s in x <==> s in b.placed
      ensures s in x ==> x[s].replicas == b.placed[s].replicas && x[s].preferredLeader == b.placed[s].preferredLeader
    {
      if s < j {
        TurnsTouchOnce(env, active, b, s, j, k);
      } else {
        TurnsTouchOnce(env, active, b, s, 0, j);
      }
    }
  }

  /** A turn that keeps its leader found nobody less loaded. */
  lemma KeptLeaderIsLeast(env: Env, active: set<NodeId>, b: Board, shard: ShardId, x: NodeId, y: NodeId)
    requires EnvOk(env, active) && AllFit(b.placed, env.nodes.Keys, env.rf) && Counted(env, active, b)
             && shard < env.shardCount
    requires shard in b.placed && b.placed[shard].preferredLeader == Some(x) && env.policies == map[]
    requires Ids(b.placed[shard].replicas) <= active && y in b.placed[shard].replicas
    requires var r := Turn(env, active, b, shard).placed;
             shard in r && r[shard].replicas == b.placed[shard].replicas && r[shard].preferredLeader == Some(x)
    ensures LeaderCount(b.placed, x, env.shardCount) <= LeaderCount(b.placed, y, env.shardCount) + 1
  {
    hide Desired, Held, BumpAll, LowerAll, LeaderFor, Q.Before, LeaderCount, EnvOk, SlotOf, Leading, PolicyOf;
    var replicas := b.placed[shard].replicas;
    ActiveKnown(env, active);
    ActiveNotHeld(env, active, b, shard);
    var others := WithoutOwn(b, shard);
    assert LeaderFor(env, active, others, replicas, shard) == Some(x);
    WithoutOwnCounts(env, active, b, shard);
    var n := BetterLeader(env, active, others, replicas, shard, y);
    assert n == x;
    if y != x {
      assert x in Ids(replicas) && y in Ids(replicas);
      NoPolicyBefore(env, shard, others, x, y);
    }
  }

  lemma ActiveKnown(env: Env, active: set<NodeId>)
    requires EnvOk(env, active)
    ensures active <= env.nodes.Keys
  {
  }

  lemma NoPolicyBefore(env: Env, shard: ShardId, others: map<NodeId, nat>, x: NodeId, y: NodeId)
    requires env.policies == map[]
    requires Q.Before(PolicyOf(env, shard), Leading(env.nodes, env.ids, shard), SlotOf(env, x, others),
                      SlotOf(env, y, others))
    ensures Get(others, x) <= Get(others, y)
  {
    hide Q.TieBefore, Leading;
  }

  /**
   * At rest leaders are even: with no policies and every shard on the same active
   * nodes, a tick that changes nothing means any two of them lead the same number
   * of shards, give or take one.
   */
  lemma EvenAtRest(env: Env, placed: Placed, r: set<NodeId>, x: NodeId, y: NodeId)
    requires EnvOk(env, ActiveNow(env, placed)) && AllFit(placed, env.nodes.Keys, env.rf)
    requires Uniform(env, ActiveNow(env, placed), placed, r) && x in r && y in r
    requires SameReplicas(placed, Reconciled(env, placed)) && SameLeaders(placed, Reconciled(env, placed))
    ensures LeaderCount(placed, x, env.shardCount) <= LeaderCount(placed, y, env.shardCount) + 1
  {
    hide ActiveNow, Turn, Turns, EnvOk, LeaderCount, Recount, LeaderRecount, Fit;
    var active := ActiveNow(env, placed);
    var b := StartBoard(env, placed);
    if LeaderCount(placed, x, env.shardCount) > 0 {
      var s := SomeShardLed(placed, x, env.shardCount);
      RestingTurns(env, active, b, env.shardCount, s);
      RestingTurns(env, active, b, env.shardCount, s + 1);
      AlwaysCounted(env, active, placed, s, env.nodes.Keys);
      var c := Turns(env, active, b, s);
      TurnsNext(env, active, b, s);
      assert y in Ids(placed[s].replicas);
      KeptLeaderIsLeast(env, active, c, s, x, y);
      LeaderCountSame(placed, c.placed, x, env.shardCount);
      LeaderCountSame(placed, c.placed, y, env.shardCount);
    }
  }

  lemma TurnsNext(env: Env, active: set<NodeId>, b: Board, s: nat)
    ensures Turns(env, active, b, s + 1) == Turn(env, active, Turns(env, active, b, s), s)
  {
  }
}
