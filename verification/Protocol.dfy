/**
 * The consensus protocol seen from outside the members: for every member its
 * term, vote, full log (compaction ignored) and commit index, together with what
 * has ever happened - who was elected in which term, with which log, by whose
 * votes, and which prefix of a leader's log each member has acknowledged.
 *
 * `Inv` is the invariant of every step a member can take. Its heart is
 * `Complete`: an elected leader either starts from a log that extends a given
 * entry of an earlier leader's term, or that entry can never be chosen.
 */
module Protocol {
  import opened Model

  datatype Core = Core(term: nat, vote: Option<NodeId>, log: seq<Entry>, commit: nat)

  datatype Global = Global(
    ids: set<NodeId>,
    core: map<NodeId, Core>,
    leaderOf: map<nat, NodeId>,               // elected leader of a term
    leaderLog: map<nat, seq<Entry>>,          // that leader's log while it led the term
    electors: map<nat, set<NodeId>>,          // the quorum that elected it
    candLog: map<(nat, NodeId), seq<Entry>>,  // log with which a member campaigned
    votes: set<(NodeId, nat, NodeId)>,        // (voter, term, candidate)
    acks: set<(NodeId, nat, nat)>)            // (member, term, index) acknowledged

  // ---- vocabulary -------------------------------------------------------

  ghost predicate Quorum(ids: set<NodeId>, q: set<NodeId>) {
    q <= ids && 2 * |q| > |ids|
  }

  /** Two quorums of one group share a member. */
  lemma QuorumsMeet(ids: set<NodeId>, q: set<NodeId>, r: set<NodeId>) returns (n: NodeId)
    requires Quorum(ids, q) && Quorum(ids, r)
    ensures n in q && n in r
  {
    if q * r == {} {
      assert |q + r| == |q| + |r|;
      SubsetSize(q + r, ids);
      assert false;
    }
    n :| n in q * r;
  }

  ghost predicate WellFormed(g: Global) {
    && g.core.Keys == g.ids
    && g.leaderLog.Keys == g.leaderOf.Keys
    && g.electors.Keys == g.leaderOf.Keys
    && (forall t :: t in g.leaderOf ==> (t, g.leaderOf[t]) in g.candLog)
  }

  /** The log with which the leader of term `t` won its election. */
  ghost function Init(g: Global, t: nat): seq<Entry>
    requires WellFormed(g) && t in g.leaderOf
  {
    g.candLog[(t, g.leaderOf[t])]
  }

  /** Index `i` of term `t`'s leader log holds an entry created in that very term. */
  ghost predicate Own(g: Global, t: nat, i: nat)
    requires WellFormed(g)
  {
    t in g.leaderOf && 0 < i <= |g.leaderLog[t]| && g.leaderLog[t][i - 1].term == t
  }

  ghost function Prefix(g: Global, t: nat, i: nat): seq<Entry>
    requires WellFormed(g) && t in g.leaderOf && i <= |g.leaderLog[t]|
  {
    g.leaderLog[t][..i]
  }

  ghost predicate Acked(g: Global, n: NodeId, t: nat, i: nat) {
    exists j :: i <= j && (n, t, j) in g.acks
  }

  ghost predicate AckedByAll(g: Global, q: set<NodeId>, t: nat, i: nat) {
    forall n :: n in q ==> Acked(g, n, t, i)
  }

  /** A quorum acknowledged index `i` in term `t`, an entry of that term. */
  ghost predicate Chosen(g: Global, t: nat, i: nat)
    requires WellFormed(g)
  {
    Own(g, t, i) && exists q :: Quorum(g.ids, q) && AckedByAll(g, q, t, i)
  }

  /** Some member of `q` has left term `t` without acknowledging index `i` in it. */
  ghost predicate Missed(g: Global, q: set<NodeId>, t: nat, i: nat)
    requires WellFormed(g)
  {
    exists n :: n in q && n in g.ids && g.core[n].term > t && !Acked(g, n, t, i)
  }

  /** No quorum can ever acknowledge index `i` in term `t`. */
  ghost predicate Blocked(g: Global, t: nat, i: nat)
    requires WellFormed(g)
  {
    forall q :: Quorum(g.ids, q) ==> Missed(g, q, t, i)
  }

  /** A later leader, of a term up to `hi`, started without the prefix `(t, i)`. */
  ghost predicate Lost(g: Global, t: nat, i: nat, hi: nat)
    requires WellFormed(g) && Own(g, t, i)
  {
    exists u :: t < u <= hi && u in g.leaderOf && !(Prefix(g, t, i) <= Init(g, u))
  }

  /** The first `c` entries of `log` lie below a chosen entry of a term up to `bound`. */
  ghost predicate Committed(g: Global, log: seq<Entry>, c: nat, bound: nat)
    requires WellFormed(g)
  {
    c <= |log| && (c == 0 || exists t, i :: CommitWitness(g, log, c, bound, t, i))
  }

  ghost predicate CommitWitness(g: Global, log: seq<Entry>, c: nat, bound: nat, t: nat, i: nat)
    requires WellFormed(g) && c <= |log|
  {
    Chosen(g, t, i) && t <= bound && c <= i && log[..c] == g.leaderLog[t][..c]
  }

  /** Entry `k` of `log`, with everything below it, was put there by the leader of its term. */
  ghost predicate EntryOk(g: Global, log: seq<Entry>, k: nat)
    requires WellFormed(g) && k < |log|
  {
    var t := log[k].term;
    && log[k].index == k + 1
    && t > 0
    && t in g.leaderOf
    && k < |g.leaderLog[t]|
    && log[..k + 1] == g.leaderLog[t][..k + 1]
  }

  ghost predicate Ordered(log: seq<Entry>, j: nat, k: nat)
    requires j < |log| && k < |log|
  {
    log[j].term <= log[k].term
  }

  ghost predicate GoodLog(g: Global, log: seq<Entry>, bound: nat)
    requires WellFormed(g)
  {
    && (forall k {:trigger EntryOk(g, log, k)} :: 0 <= k < |log| ==> EntryOk(g, log, k) && log[k].term <= bound)
    && (forall j, k {:trigger Ordered(log, j, k)} :: 0 <= j <= k < |log| ==> Ordered(log, j, k))
  }

  // ---- the invariant ----------------------------------------------------

  ghost predicate LogsOk(g: Global)
    requires WellFormed(g)
  {
    && (forall n :: n in g.ids ==> GoodLog(g, g.core[n].log, g.core[n].term))
    && (forall t :: t in g.leaderOf ==> GoodLog(g, g.leaderLog[t], t))
    && (forall t, c :: (t, c) in g.candLog ==> t > 0 && GoodLog(g, g.candLog[(t, c)], t - 1))
  }

  ghost predicate LeadersOk(g: Global)
    requires WellFormed(g)
  {
    forall t :: t in g.leaderOf ==>
      && g.leaderOf[t] in g.ids
      && Init(g, t) <= g.leaderLog[t]
      && Quorum(g.ids, g.electors[t])
      && (forall v :: v in g.electors[t] ==> (v, t, g.leaderOf[t]) in g.votes)
  }

  ghost predicate VotesOk(g: Global)
    requires WellFormed(g)
  {
    && (forall t, c :: (t, c) in g.candLog ==> c in g.ids && t <= g.core[c].term && (c, t, c) in g.votes)
    && (forall v, t, c :: (v, t, c) in g.votes ==>
          && v in g.ids && (t, c) in g.candLog && t <= g.core[v].term
          && (t == g.core[v].term ==> g.core[v].vote == Some(c)))
    && (forall v, t, c, d :: (v, t, c) in g.votes && (v, t, d) in g.votes ==> c == d)
  }

  ghost predicate AcksOk(g: Global)
    requires WellFormed(g)
  {
    forall n, t, j :: (n, t, j) in g.acks ==>
      n in g.ids && t in g.leaderOf && j <= |g.leaderLog[t]| && t <= g.core[n].term
  }

  /** What a member acknowledged it still holds, unless a later leader took it away. */
  ghost predicate Kept(g: Global)
    requires WellFormed(g)
  {
    forall n, t, i :: n in g.ids && Own(g, t, i) && Acked(g, n, t, i) ==>
      Prefix(g, t, i) <= g.core[n].log || Lost(g, t, i, g.core[n].term)
  }

  /** A voter only elects a log holding what the voter acknowledged, with the same exception. */
  ghost predicate VotedFor(g: Global)
    requires WellFormed(g) && VotesOk(g)
  {
    forall v, u, c, t, i :: (v, u, c) in g.votes && t < u && Own(g, t, i) && Acked(g, v, t, i) ==>
      Prefix(g, t, i) <= g.candLog[(u, c)] || Lost(g, t, i, u)
  }

  ghost predicate Complete(g: Global)
    requires WellFormed(g)
  {
    forall t, u, i :: u in g.leaderOf && t < u && Own(g, t, i) ==>
      Prefix(g, t, i) <= Init(g, u) || Blocked(g, t, i)
  }

  ghost predicate CommitsOk(g: Global)
    requires WellFormed(g)
  {
    forall n :: n in g.ids ==> Committed(g, g.core[n].log, g.core[n].commit, g.core[n].term)
  }

  ghost predicate Inv(g: Global) {
    && WellFormed(g)
    && LogsOk(g) && LeadersOk(g) && VotesOk(g) && AcksOk(g)
    && Kept(g) && VotedFor(g) && Complete(g) && CommitsOk(g)
  }

  /** `n` took a step: history only grew, and only `n`'s own share of it changed. */
  ghost predicate StepBy(g: Global, h: Global, n: NodeId) {
    && WellFormed(g) && WellFormed(h)
    && g.ids == h.ids
    && (forall m :: m in g.ids && m != n ==> h.core[m] == g.core[m])
    && (n in g.ids ==> g.core[n].term <= h.core[n].term)
    && (forall t :: t in g.leaderOf ==>
          && t in h.leaderOf && h.leaderOf[t] == g.leaderOf[t] && h.electors[t] == g.electors[t]
          && g.leaderLog[t] <= h.leaderLog[t]
          && (h.leaderOf[t] != n ==> h.leaderLog[t] == g.leaderLog[t]))
    && (forall t :: t in h.leaderOf && t !in g.leaderOf ==> h.leaderOf[t] == n)
    && (forall x :: x in g.candLog ==> x in h.candLog && h.candLog[x] == g.candLog[x])
    && g.votes <= h.votes && (forall v, t, c :: (v, t, c) in h.votes && (v, t, c) !in g.votes ==> v == n)
    && g.acks <= h.acks
    && (forall m, t, j :: (m, t, j) in h.acks && (m, t, j) !in g.acks ==>
          m == n && n in g.ids && g.core[n].term <= t <= h.core[n].term)
  }

  lemma StepByTransitive(f: Global, g: Global, h: Global, n: NodeId)
    requires StepBy(f, g, n) && StepBy(g, h, n)
    ensures StepBy(f, h, n)
  {
  }

  // ---- consequences of the invariant ------------------------------------

  /** Log matching: equal terms at an index mean equal logs up to that index. */
  lemma LogMatching(g: Global, a: seq<Entry>, b: seq<Entry>, k: nat, x: nat, y: nat)
    requires WellFormed(g) && GoodLog(g, a, x) && GoodLog(g, b, y)
    requires k < |a| && k < |b| && a[k].term == b[k].term
    ensures a[..k + 1] == b[..k + 1]
  {
    assert EntryOk(g, a, k) && EntryOk(g, b, k);
  }

  lemma ChosenNotBlocked(g: Global, t: nat, i: nat)
    requires WellFormed(g) && Chosen(g, t, i)
    ensures !Blocked(g, t, i)
  {
    var q :| Quorum(g.ids, q) && AckedByAll(g, q, t, i);
    assert !Missed(g, q, t, i);
  }

  /** Leader completeness: a chosen entry is in the log of every leader of that or a later term. */
  lemma LeaderCompleteness(g: Global, t: nat, i: nat, u: nat)
    requires WellFormed(g) && LeadersOk(g) && Complete(g)
    requires Chosen(g, t, i) && u in g.leaderOf && t <= u
    ensures Prefix(g, t, i) <= g.leaderLog[u]
  {
    if t < u {
      ChosenNotBlocked(g, t, i);
      assert Prefix(g, t, i) <= Init(g, u);
    }
  }

  lemma ChosenAgree(g: Global, t: nat, i: nat, u: nat, j: nat, x: nat)
    requires WellFormed(g) && LeadersOk(g) && Complete(g)
    requires Chosen(g, t, i) && Chosen(g, u, j) && x <= i && x <= j
    ensures g.leaderLog[t][..x] == g.leaderLog[u][..x]
  {
    if t <= u {
      LeaderCompleteness(g, t, i, u);
      PrefixCut(g.leaderLog[t], g.leaderLog[u], i, x);
    } else {
      LeaderCompleteness(g, u, j, t);
      PrefixCut(g.leaderLog[u], g.leaderLog[t], j, x);
    }
  }

  lemma PrefixCut(a: seq<Entry>, b: seq<Entry>, i: nat, x: nat)
    requires x <= i <= |a| && a[..i] <= b
    ensures x <= |b| && a[..x] == b[..x]
  {
    assert a[..x] == a[..i][..x] == b[..i][..x] == b[..x];
  }

  /** Two committed prefixes never disagree. */
  lemma CommittedAgree(g: Global, a: seq<Entry>, x: nat, ba: nat, b: seq<Entry>, y: nat, bb: nat)
    requires WellFormed(g) && LeadersOk(g) && Complete(g)
    requires Committed(g, a, x, ba) && Committed(g, b, y, bb) && x <= y
    ensures a[..x] == b[..x]
  {
    if x > 0 {
      var t, i :| CommitWitness(g, a, x, ba, t, i);
      var u, j :| CommitWitness(g, b, y, bb, u, j);
      ChosenAgree(g, t, i, u, j, x);
      PrefixCut(g.leaderLog[u], b, y, x);
    }
  }

  /** Whoever has the votes of a quorum, elected or not, campaigned with every entry chosen in an earlier term. */
  lemma VotedComplete(g: Global, t: nat, i: nat, u: nat, c: NodeId, q: set<NodeId>)
    requires WellFormed(g) && VotesOk(g) && VotedFor(g) && LeadersOk(g) && Complete(g)
    requires Chosen(g, t, i) && t < u && Quorum(g.ids, q) && forall v :: v in q ==> (v, u, c) in g.votes
    requires (u, c) in g.candLog
    ensures Prefix(g, t, i) <= g.candLog[(u, c)]
  {
    var r :| Quorum(g.ids, r) && AckedByAll(g, r, t, i);
    var v := QuorumsMeet(g.ids, q, r);
    assert Acked(g, v, t, i) && (v, u, c) in g.votes;
    ChosenNotBlocked(g, t, i);
    assert !Lost(g, t, i, u);
  }

  /** Election safety: one leader per term. */
  lemma OneLeader(g: Global, t: nat, n: NodeId, q: set<NodeId>)
    requires Inv(g) && t in g.leaderOf
    requires Quorum(g.ids, q) && forall v :: v in q ==> (v, t, n) in g.votes
    ensures g.leaderOf[t] == n
  {
    var v := QuorumsMeet(g.ids, q, g.electors[t]);
    assert (v, t, g.leaderOf[t]) in g.votes && (v, t, n) in g.votes;
  }
}
