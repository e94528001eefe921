/** Leader affinity: which replica of a shard should lead it. */
module Leadership {
  import opened Model
  import opened NodeOrder

  datatype LeaderSlot = LeaderSlot(nodeId: NodeId, cloudProvider: string, region: string, leaderLoad: nat)

  datatype Policy = Policy(homeRegion: Option<string>, preferredCloud: Option<string>)

  function Lower(s: string): string {
    if s == [] then []
    else [if 'A' <= s[0] <= 'Z' then (s[0] as int + 32) as char else s[0]] + Lower(s[1..])
  }

  /** Does the wish, if there is one, name `name` up to ASCII case. */
  predicate Grants(wish: Option<string>, name: string) {
    wish.Some? && Lower(wish.value) == Lower(name)
  }

  function RegionMiss(policy: Option<Policy>, slot: LeaderSlot): nat {
    if policy.Some? && Grants(policy.value.homeRegion, slot.region) then 0 else 1
  }

  function CloudMiss(policy: Option<Policy>, slot: LeaderSlot): nat {
    if policy.Some? && Grants(policy.value.preferredCloud, slot.cloudProvider) then 0 else 1
  }

  /** The order among equally loaded slots: the observed leader, then the lower id. */
  predicate TieBefore(observed: Option<NodeId>, a: NodeId, b: NodeId) {
    || (observed == Some(a) && observed != Some(b))
    || ((observed == Some(a)) == (observed == Some(b)) && Less(a, b))
  }

  /** Region first, then provider, then the lower leader load, then the tie-break. */
  predicate Before(policy: Option<Policy>, observed: Option<NodeId>, a: LeaderSlot, b: LeaderSlot) {
    var ra, rb := RegionMiss(policy, a), RegionMiss(policy, b);
    var ca, cb := CloudMiss(policy, a), CloudMiss(policy, b);
    || ra < rb
    || (ra == rb && (ca < cb
       || (ca == cb && (a.leaderLoad < b.leaderLoad
          || (a.leaderLoad == b.leaderLoad && TieBefore(observed, a.nodeId, b.nodeId))))))
  }

  predicate Eligible(slot: LeaderSlot, replicas: seq<NodeId>, healthy: set<NodeId>) {
    slot.nodeId in healthy && slot.nodeId in replicas
  }

  function BestSlot(policy: Option<Policy>, replicas: seq<NodeId>, healthy: set<NodeId>, slots: seq<LeaderSlot>,
                    observed: Option<NodeId>): Option<LeaderSlot>
  {
    if slots == [] then None
    else
      var last := slots[|slots| - 1];
      match BestSlot(policy, replicas, healthy, slots[..|slots| - 1], observed)
      case None => if Eligible(last, replicas, healthy) then Some(last) else None
      case Some(best) =>
        if Eligible(last, replicas, healthy) && Before(policy, observed, last, best) then Some(last) else Some(best)
  }

  function PreferredLeaderForPolicy(policy: Option<Policy>, replicas: seq<NodeId>, healthy: set<NodeId>,
                                    slots: seq<LeaderSlot>, observed: Option<NodeId>): Option<NodeId>
  {
    match BestSlot(policy, replicas, healthy, slots, observed)
    case Some(s) => Some(s.nodeId)
    case None => None
  }

  lemma TieTotal(observed: Option<NodeId>, a: NodeId, b: NodeId)
    ensures a != b ==> TieBefore(observed, a, b) != TieBefore(observed, b, a)
    ensures !TieBefore(observed, a, a)
  {
    LessTotal(a, b);
    LessTotal(a, a);
  }

  lemma TieTransitive(observed: Option<NodeId>, a: NodeId, b: NodeId, c: NodeId)
    requires TieBefore(observed, a, b) && TieBefore(observed, b, c)
    ensures TieBefore(observed, a, c)
  {
    if Less(a, b) && Less(b, c) { LessTransitive(a, b, c); }
    LessTotal(a, b);
    LessTotal(b, c);
  }

  lemma BeforeTransitive(policy: Option<Policy>, observed: Option<NodeId>, a: LeaderSlot, b: LeaderSlot, c: LeaderSlot)
    requires Before(policy, observed, a, b) && Before(policy, observed, b, c)
    ensures Before(policy, observed, a, c)
  {
    hide TieBefore, RegionMiss, CloudMiss;
    if TieBefore(observed, a.nodeId, b.nodeId) && TieBefore(observed, b.nodeId, c.nodeId) {
      TieTransitive(observed, a.nodeId, b.nodeId, c.nodeId);
    }
  }

  lemma BeforeTotal(policy: Option<Policy>, observed: Option<NodeId>, a: LeaderSlot, b: LeaderSlot)
    ensures a.nodeId != b.nodeId ==> Before(policy, observed, a, b) != Before(policy, observed, b, a)
  {
    hide TieBefore, RegionMiss, CloudMiss;
    TieTotal(observed, a.nodeId, b.nodeId);
  }

  /** `best` is an eligible slot that comes before every other eligible one. */
  ghost predicate IsFirst(policy: Option<Policy>, replicas: seq<NodeId>, healthy: set<NodeId>, slots: seq<LeaderSlot>,
                         observed: Option<NodeId>, best: LeaderSlot)
  {
    && best in slots && Eligible(best, replicas, healthy)
    && (forall s :: s in slots && Eligible(s, replicas, healthy) && s != best ==> Before(policy, observed, best, s))
  }

  function Nodes(slots: seq<LeaderSlot>): (ids: seq<NodeId>)
    ensures |ids| == |slots| && forall i :: 0 <= i < |slots| ==> ids[i] == slots[i].nodeId
  {
    seq(|slots|, i requires 0 <= i < |slots| => slots[i].nodeId)
  }

  lemma FrontDistinct(slots: seq<LeaderSlot>)
    requires slots != [] && Distinct(Nodes(slots))
    ensures Distinct(Nodes(slots[..|slots| - 1]))
    ensures forall s :: s in slots[..|slots| - 1] ==> s.nodeId != slots[|slots| - 1].nodeId
  {
    var k := |slots| - 1;
    var front := slots[..k];
    forall s | s in front ensures s.nodeId != slots[k].nodeId {
      var i :| 0 <= i < |front| && front[i] == s;
      assert Nodes(slots)[i] != Nodes(slots)[k];
    }
    forall i, j | 0 <= i < j < k ensures Nodes(front)[i] != Nodes(front)[j] {
      assert Nodes(slots)[i] != Nodes(slots)[j];
    }
  }

  /**
   * The choice is the unique first eligible slot in the preference order, and there is none
   * only if none is eligible.
   */
  lemma {:induction false} BestSlotIsBest(policy: Option<Policy>, replicas: seq<NodeId>, healthy: set<NodeId>,
                                          slots: seq<LeaderSlot>, observed: Option<NodeId>)
    requires Distinct(Nodes(slots))
    ensures var r := BestSlot(policy, replicas, healthy, slots, observed);
            && (r.None? <==> forall s :: s in slots ==> !Eligible(s, replicas, healthy))
            && (r.Some? ==> IsFirst(policy, replicas, healthy, slots, observed, r.value))
  {
    if slots != [] {
      hide Before, Eligible, Nodes, Distinct;
      var k := |slots| - 1;
      var last, front := slots[k], slots[..k];
      FrontDistinct(slots);
      BestSlotIsBest(policy, replicas, healthy, front, observed);
      assert forall s :: s in slots <==> s in front || s == last;
      var b := BestSlot(policy, replicas, healthy, front, observed);
      if b.Some? && Eligible(last, replicas, healthy) {
        BeforeTotal(policy, observed, last, b.value);
        if Before(policy, observed, last, b.value) {
          forall s | s in slots && Eligible(s, replicas, healthy) && s != last
            ensures Before(policy, observed, last, s) {
            if s != b.value { BeforeTransitive(policy, observed, last, b.value, s); }
          }
        }
      }
    }
  }

  // ---- what a policy asks for -------------------------------------------

  /** Two letters that differ at most in their ASCII case. */
  predicate SameLetter(a: char, b: char) {
    || a == b
    || ('A' <= a <= 'Z' && b as int == a as int + 32) || ('A' <= b <= 'Z' && a as int == b as int + 32)
  }

  predicate SameName(a: string, b: string) { |a| == |b| && forall i :: 0 <= i < |a| ==> SameLetter(a[i], b[i]) }

  lemma {:induction false} LowerIsSameName(a: string, b: string)
    ensures Lower(a) == Lower(b) <==> SameName(a, b)
  {
    if a == [] {
      assert Lower(b) == [] <==> b == [];
    } else if b != [] {
      LowerIsSameName(a[1..], b[1..]);
      SameNameSplit(a, b);
      assert Lower(a)[1..] == Lower(a[1..]) && Lower(b)[1..] == Lower(b[1..]);
      if Lower(a)[0] == Lower(b)[0] && Lower(a[1..]) == Lower(b[1..]) {
        assert Lower(a) == Lower(b);
      }
    }
  }

  lemma SameNameSplit(a: string, b: string)
    requires a != [] && b != []
    ensures SameName(a, b) <==> SameLetter(a[0], b[0]) && SameName(a[1..], b[1..])
  {
    if SameLetter(a[0], b[0]) && SameName(a[1..], b[1..]) {
      forall i | 0 <= i < |a| ensures SameLetter(a[i], b[i]) {
        if i > 0 { assert SameLetter(a[1..][i - 1], b[1..][i - 1]); }
      }
    }
  }

  predicate InHomeRegion(policy: Option<Policy>, region: string) {
    policy.Some? && policy.value.homeRegion.Some? && SameName(policy.value.homeRegion.value, region)
  }

  predicate InPreferredCloud(policy: Option<Policy>, cloudProvider: string) {
    policy.Some? && policy.value.preferredCloud.Some? && SameName(policy.value.preferredCloud.value, cloudProvider)
  }

  predicate SameRegion(policy: Option<Policy>, a: LeaderSlot, b: LeaderSlot) {
    InHomeRegion(policy, a.region) == InHomeRegion(policy, b.region)
  }

  predicate SameCloud(policy: Option<Policy>, a: LeaderSlot, b: LeaderSlot) {
    InPreferredCloud(policy, a.cloudProvider) == InPreferredCloud(policy, b.cloudProvider)
  }

  /** Neither has an advantage by region, provider or load. */
  predicate Level(policy: Option<Policy>, a: LeaderSlot, b: LeaderSlot) {
    SameRegion(policy, a, b) && SameCloud(policy, a, b) && a.leaderLoad == b.leaderLoad
  }

  /**
   * What decides, in the slots' own fields: the home region if some candidate is in it; then the
   * preferred provider; then the fewest shards led; then the observed leader; then the lowest id.
   */
  ghost predicate Decided(policy: Option<Policy>, candidates: set<LeaderSlot>, observed: Option<NodeId>,
                          best: LeaderSlot)
  {
    && best in candidates
    && (forall s :: s in candidates && InHomeRegion(policy, s.region) ==> InHomeRegion(policy, best.region))
    && (forall s :: s in candidates && SameRegion(policy, s, best) && InPreferredCloud(policy, s.cloudProvider) ==>
          InPreferredCloud(policy, best.cloudProvider))
    && (forall s :: s in candidates && SameRegion(policy, s, best) && SameCloud(policy, s, best) ==>
          best.leaderLoad <= s.leaderLoad)
    && (forall s :: s in candidates && Level(policy, s, best) && observed == Some(s.nodeId) ==> s.nodeId == best.nodeId)
    && (forall s :: s in candidates && Level(policy, s, best) && observed != Some(best.nodeId) && s != best ==>
          Less(best.nodeId, s.nodeId))
  }

  /** The choice among the slots of healthy replicas, and there is none only if there is no such slot. */
  lemma PolicyDecides(policy: Option<Policy>, replicas: seq<NodeId>, healthy: set<NodeId>, slots: seq<LeaderSlot>,
                      observed: Option<NodeId>)
    requires Distinct(Nodes(slots))
    ensures var candidates := set s | s in slots && s.nodeId in healthy && s.nodeId in replicas;
            var r := BestSlot(policy, replicas, healthy, slots, observed);
            && (r.None? <==> candidates == {}) && (r.Some? ==> Decided(policy, candidates, observed, r.value))
  {
    hide BestSlot, Nodes, Distinct, Outranks, SameName, InHomeRegion, InPreferredCloud, Before, Decided;
    BestSlotIsBest(policy, replicas, healthy, slots, observed);
    var candidates := set s | s in slots && s.nodeId in healthy && s.nodeId in replicas;
    var r := BestSlot(policy, replicas, healthy, slots, observed);
    if r.Some? {
      assert r.value in candidates;
      MissesOf(policy, r.value);
      forall s | s in candidates && s != r.value ensures Outranks(policy, observed, r.value, s) {
        assert Eligible(s, replicas, healthy);
        MissesOf(policy, s);
        BeforeOutranks(policy, observed, r.value, s);
      }
      OutranksDecides(policy, candidates, observed, r.value);
    } else {
      forall s | s in slots ensures s !in candidates {
        assert !Eligible(s, replicas, healthy);
      }
      assert candidates == {};
    }
  }

  lemma OutranksDecides(policy: Option<Policy>, candidates: set<LeaderSlot>, observed: Option<NodeId>, best: LeaderSlot)
    requires best in candidates
    requires forall s :: s in candidates && s != best ==> Outranks(policy, observed, best, s)
    ensures Decided(policy, candidates, observed, best)
  {
    hide InHomeRegion, InPreferredCloud;
  }

  lemma MissesOf(policy: Option<Policy>, s: LeaderSlot)
    ensures RegionMiss(policy, s) == if InHomeRegion(policy, s.region) then 0 else 1
    ensures CloudMiss(policy, s) == if InPreferredCloud(policy, s.cloudProvider) then 0 else 1
  {
    hide SameName;
    if policy.Some? {
      if policy.value.homeRegion.Some? { LowerIsSameName(policy.value.homeRegion.value, s.region); }
      if policy.value.preferredCloud.Some? { LowerIsSameName(policy.value.preferredCloud.value, s.cloudProvider); }
    }
  }

  /** `best` is not worse than `s` in any respect that counts. */
  predicate Outranks(policy: Option<Policy>, observed: Option<NodeId>, best: LeaderSlot, s: LeaderSlot) {
    var rb, rs := InHomeRegion(policy, best.region), InHomeRegion(policy, s.region);
    var cb, cs := InPreferredCloud(policy, best.cloudProvider), InPreferredCloud(policy, s.cloudProvider);
    || (rb && !rs)
    || (rb == rs && ((cb && !cs)
       || (cb == cs && (best.leaderLoad < s.leaderLoad
          || (best.leaderLoad == s.leaderLoad
              && (best == s || observed == Some(best.nodeId)
                  || (observed != Some(s.nodeId) && Less(best.nodeId, s.nodeId))))))))
  }

  lemma BeforeOutranks(policy: Option<Policy>, observed: Option<NodeId>, best: LeaderSlot, s: LeaderSlot)
    requires Before(policy, observed, best, s)
    requires RegionMiss(policy, s) == (if InHomeRegion(policy, s.region) then 0 else 1)
    requires RegionMiss(policy, best) == (if InHomeRegion(policy, best.region) then 0 else 1)
    requires CloudMiss(policy, s) == (if InPreferredCloud(policy, s.cloudProvider) then 0 else 1)
    requires CloudMiss(policy, best) == (if InPreferredCloud(policy, best.cloudProvider) then 0 else 1)
    ensures Outranks(policy, observed, best, s)
  {
    hide InHomeRegion, InPreferredCloud, RegionMiss, CloudMiss;
  }

  predicate CanLead(n: NodeId, replicas: seq<NodeId>, healthy: set<NodeId>) { n in healthy && n in replicas }

  /** The first healthy replica. */
  function FirstHealthy(replicas: seq<NodeId>, healthy: set<NodeId>): Option<NodeId> {
    if replicas == [] then None
    else if replicas[0] in healthy then Some(replicas[0]) else FirstHealthy(replicas[1..], healthy)
  }

  /** Affinity, then stickiness, then failover. */
  function DesiredLeader(preferred: Option<NodeId>, replicas: seq<NodeId>, healthy: set<NodeId>,
                         current: Option<NodeId>): Option<NodeId>
  {
    if preferred.Some? && CanLead(preferred.value, replicas, healthy) then preferred
    else if current.Some? && CanLead(current.value, replicas, healthy) then current
    else FirstHealthy(replicas, healthy)
  }

  /** The desired leader is a healthy replica, and there is none only if no replica is healthy. */
  lemma {:induction false} DesiredLeaderCanLead(preferred: Option<NodeId>, replicas: seq<NodeId>, healthy: set<NodeId>,
                                                current: Option<NodeId>)
    ensures var r := DesiredLeader(preferred, replicas, healthy, current);
            && (r.Some? ==> CanLead(r.value, replicas, healthy))
            && (r.None? <==> forall n :: n in replicas ==> n !in healthy)
  {
    FirstHealthyOk(replicas, healthy);
  }

  /** The preferred node leads if it can, else the present leader if it can, else the earliest replica that can. */
  lemma {:induction false} DesiredLeaderOrder(preferred: Option<NodeId>, replicas: seq<NodeId>, healthy: set<NodeId>,
                                              current: Option<NodeId>, i: nat)
    requires i < |replicas| && replicas[i] in healthy && forall j :: 0 <= j < i ==> replicas[j] !in healthy
    ensures DesiredLeader(preferred, replicas, healthy, current) ==
            Some(if preferred.Some? && preferred.value in healthy && preferred.value in replicas then preferred.value
                 else if current.Some? && current.value in healthy && current.value in replicas then current.value
                 else replicas[i])
  {
    FirstHealthyAt(replicas, healthy, i);
  }

  lemma {:induction false} FirstHealthyAt(replicas: seq<NodeId>, healthy: set<NodeId>, i: nat)
    requires i < |replicas| && replicas[i] in healthy && forall j :: 0 <= j < i ==> replicas[j] !in healthy
    ensures FirstHealthy(replicas, healthy) == Some(replicas[i])
  {
    if i > 0 {
      assert replicas[0] !in healthy;
      FirstHealthyAt(replicas[1..], healthy, i - 1);
    }
  }

  lemma {:induction false} FirstHealthyOk(replicas: seq<NodeId>, healthy: set<NodeId>)
    ensures var r := FirstHealthy(replicas, healthy);
            && (r.Some? ==> r.value in healthy && r.value in replicas)
            && (r.None? <==> forall n :: n in replicas ==> n !in healthy)
  {
    if replicas != [] {
      FirstHealthyOk(replicas[1..], healthy);
      assert forall n :: n in replicas <==> n == replicas[0] || n in replicas[1..];
    }
  }
}
