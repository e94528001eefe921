/**
 * The steps a member can take, on the history of `Protocol`, each proved to keep
 * the protocol invariant. A call into the engine is a sequence of these.
 */
module ProtocolSteps {
  import opened Model
  import opened Protocol

  // ---- what growing history keeps ---------------------------------------

  lemma GoodLogGrows(g: Global, h: Global, n: NodeId, log: seq<Entry>, bound: nat)
    requires StepBy(g, h, n) && GoodLog(g, log, bound)
    ensures GoodLog(h, log, bound)
  {
    forall k {:trigger EntryOk(h, log, k)} | 0 <= k < |log| ensures EntryOk(h, log, k) && log[k].term <= bound {
      assert EntryOk(g, log, k);
      assert g.leaderLog[log[k].term] <= h.leaderLog[log[k].term];
    }
  }

  lemma OwnStays(g: Global, h: Global, n: NodeId, t: nat, i: nat)
    requires StepBy(g, h, n) && t in g.leaderOf && i <= |g.leaderLog[t]|
    ensures Own(g, t, i) <==> Own(h, t, i)
    ensures Prefix(g, t, i) == Prefix(h, t, i)
  {
  }

  lemma LostStays(g: Global, h: Global, n: NodeId, t: nat, i: nat, x: nat, y: nat)
    requires StepBy(g, h, n) && Own(g, t, i) && Lost(g, t, i, x) && x <= y
    ensures Own(h, t, i) && Lost(h, t, i, y)
  {
    var u :| t < u <= x && u in g.leaderOf && !(Prefix(g, t, i) <= Init(g, u));
    OwnStays(g, h, n, t, i);
    assert Init(h, u) == Init(g, u);
  }

  lemma AckedStays(g: Global, h: Global, n: NodeId, m: NodeId, t: nat, i: nat)
    requires StepBy(g, h, n)
    ensures Acked(g, m, t, i) ==> Acked(h, m, t, i)
    ensures Acked(h, m, t, i) && !(m == n && n in g.ids && t >= g.core[n].term) ==> Acked(g, m, t, i)
  {
    if Acked(h, m, t, i) && !(m == n && n in g.ids && t >= g.core[n].term) {
      var j :| i <= j && (m, t, j) in h.acks;
      assert (m, t, j) in g.acks;
    }
  }

  lemma BlockedStays(g: Global, h: Global, n: NodeId, t: nat, i: nat)
    requires StepBy(g, h, n) && Blocked(g, t, i)
    ensures Blocked(h, t, i)
  {
    forall q | Quorum(h.ids, q) ensures Missed(h, q, t, i) {
      assert Missed(g, q, t, i);
      var m :| m in q && m in g.ids && g.core[m].term > t && !Acked(g, m, t, i);
      AckedStays(g, h, n, m, t, i);
      assert h.core[m].term > t;
    }
  }

  lemma ChosenStays(g: Global, h: Global, n: NodeId, t: nat, i: nat)
    requires StepBy(g, h, n) && Chosen(g, t, i)
    ensures Chosen(h, t, i)
  {
    OwnStays(g, h, n, t, i);
    var q :| Quorum(g.ids, q) && AckedByAll(g, q, t, i);
    forall m | m in q ensures Acked(h, m, t, i) {
      AckedStays(g, h, n, m, t, i);
    }
    assert AckedByAll(h, q, t, i);
  }

  lemma CommittedStays(g: Global, h: Global, n: NodeId, log: seq<Entry>, c: nat, x: nat, y: nat)
    requires StepBy(g, h, n) && Committed(g, log, c, x) && x <= y
    ensures Committed(h, log, c, y)
  {
    hide AckedByAll, Quorum, Acked;
    if c > 0 {
      var t, i :| CommitWitness(g, log, c, x, t, i);
      ChosenStays(g, h, n, t, i);
      assert g.leaderLog[t] <= h.leaderLog[t];
      assert CommitWitness(h, log, c, y, t, i);
    }
  }

  /** The logs that a step of `n` did not touch stay good. */
  lemma OldLogsGood(g: Global, h: Global, n: NodeId)
    requires StepBy(g, h, n) && LogsOk(g)
    ensures forall m :: m in g.ids && m != n ==> GoodLog(h, h.core[m].log, h.core[m].term)
    ensures forall t :: t in g.leaderOf && h.leaderLog[t] == g.leaderLog[t] ==> GoodLog(h, h.leaderLog[t], t)
    ensures forall t, c :: (t, c) in g.candLog ==> t > 0 && GoodLog(h, h.candLog[(t, c)], t - 1)
  {
    forall m | m in g.ids && m != n ensures GoodLog(h, h.core[m].log, h.core[m].term) {
      GoodLogGrows(g, h, n, g.core[m].log, g.core[m].term);
    }
    forall t | t in g.leaderOf && h.leaderLog[t] == g.leaderLog[t] ensures GoodLog(h, h.leaderLog[t], t) {
      GoodLogGrows(g, h, n, g.leaderLog[t], t);
    }
    forall t, c | (t, c) in g.candLog ensures t > 0 && GoodLog(h, h.candLog[(t, c)], t - 1) {
      GoodLogGrows(g, h, n, g.candLog[(t, c)], t - 1);
    }
  }

  lemma OldCommits(g: Global, h: Global, n: NodeId)
    requires StepBy(g, h, n) && CommitsOk(g)
    ensures forall m :: m in g.ids && m != n ==> Committed(h, h.core[m].log, h.core[m].commit, h.core[m].term)
  {
    forall m | m in g.ids && m != n ensures Committed(h, h.core[m].log, h.core[m].commit, h.core[m].term) {
      CommittedStays(g, h, n, g.core[m].log, g.core[m].commit, g.core[m].term, g.core[m].term);
    }
  }

  /** Leaders, their logs and the acknowledgements are untouched. */
  ghost predicate Quiet(g: Global, h: Global, n: NodeId) {
    && StepBy(g, h, n) && n in g.ids
    && h.leaderOf == g.leaderOf && h.leaderLog == g.leaderLog && h.acks == g.acks
  }

  lemma QuietComplete(g: Global, h: Global, n: NodeId)
    requires Quiet(g, h, n) && Complete(g)
    ensures Complete(h)
  {
    forall t, u, i | u in h.leaderOf && t < u && Own(h, t, i)
      ensures Prefix(h, t, i) <= Init(h, u) || Blocked(h, t, i)
    {
      OwnStays(g, h, n, t, i);
      if Blocked(g, t, i) {
        BlockedStays(g, h, n, t, i);
      }
    }
  }

  /** In a quiet step only the log of `n` can endanger what was acknowledged. */
  lemma QuietKept(g: Global, h: Global, n: NodeId)
    requires Quiet(g, h, n) && Kept(g)
    requires forall t, i :: Own(g, t, i) && Acked(g, n, t, i) && Prefix(g, t, i) <= g.core[n].log ==>
               Prefix(g, t, i) <= h.core[n].log || Lost(g, t, i, h.core[n].term)
    ensures Kept(h)
  {
    forall m, t, i | m in h.ids && Own(h, t, i) && Acked(h, m, t, i)
      ensures Prefix(h, t, i) <= h.core[m].log || Lost(h, t, i, h.core[m].term)
    {
      OwnStays(g, h, n, t, i);
      assert Acked(g, m, t, i);
      if Lost(g, t, i, g.core[m].term) {
        LostStays(g, h, n, t, i, g.core[m].term, h.core[m].term);
      } else if m == n && Lost(g, t, i, h.core[n].term) {
        LostStays(g, h, n, t, i, h.core[n].term, h.core[n].term);
      }
    }
  }

  /** The votes of a quiet step need a look only where they are new. */
  lemma QuietVotedFor(g: Global, h: Global, n: NodeId)
    requires Quiet(g, h, n) && VotesOk(g) && VotesOk(h) && VotedFor(g)
    requires forall v, u, c, t, i ::
               (v, u, c) in h.votes && (v, u, c) !in g.votes && t < u && Own(g, t, i) && Acked(g, v, t, i) ==>
               Prefix(g, t, i) <= h.candLog[(u, c)] || Lost(g, t, i, u)
    ensures VotedFor(h)
  {
    forall v, u, c, t, i | (v, u, c) in h.votes && t < u && Own(h, t, i) && Acked(h, v, t, i)
      ensures Prefix(h, t, i) <= h.candLog[(u, c)] || Lost(h, t, i, u)
    {
      OwnStays(g, h, n, t, i);
      assert Acked(g, v, t, i);
      if Lost(g, t, i, u) {
        LostStays(g, h, n, t, i, u, u);
      } else if (v, u, c) in g.votes {
        assert Prefix(g, t, i) <= g.candLog[(u, c)];
      }
    }
  }

  lemma QuietLeaders(g: Global, h: Global, n: NodeId)
    requires Quiet(g, h, n) && LeadersOk(g)
    ensures LeadersOk(h)
  {
    forall t | t in h.leaderOf
      ensures Init(h, t) == Init(g, t) && h.electors[t] == g.electors[t]
      ensures forall v :: v in h.electors[t] ==> (v, t, h.leaderOf[t]) in h.votes
    {
    }
  }

  lemma QuietAcks(g: Global, h: Global, n: NodeId)
    requires Quiet(g, h, n) && AcksOk(g)
    ensures AcksOk(h)
  {
    forall m, t, j | (m, t, j) in h.acks
      ensures m in h.ids && t in h.leaderOf && j <= |h.leaderLog[t]| && t <= h.core[m].term
    {
      assert (m, t, j) in g.acks;
    }
  }

  lemma QuietLogs(g: Global, h: Global, n: NodeId)
    requires Quiet(g, h, n) && LogsOk(g)
    requires GoodLog(g, h.core[n].log, h.core[n].term)
    requires forall t, c :: (t, c) in h.candLog && (t, c) !in g.candLog ==>
               t > 0 && GoodLog(g, h.candLog[(t, c)], t - 1)
    ensures LogsOk(h)
  {
    OldLogsGood(g, h, n);
    GoodLogGrows(g, h, n, h.core[n].log, h.core[n].term);
    forall t, c | (t, c) in h.candLog ensures t > 0 && GoodLog(h, h.candLog[(t, c)], t - 1) {
      if (t, c) !in g.candLog {
        GoodLogGrows(g, h, n, h.candLog[(t, c)], t - 1);
      }
    }
  }

  lemma QuietCommits(g: Global, h: Global, n: NodeId)
    requires Quiet(g, h, n) && CommitsOk(g)
    requires Committed(g, h.core[n].log, h.core[n].commit, h.core[n].term)
    ensures CommitsOk(h)
  {
    OldCommits(g, h, n);
    CommittedStays(g, h, n, h.core[n].log, h.core[n].commit, h.core[n].term, h.core[n].term);
  }

  /** What is left to show of a quiet step that keeps the log of `n`. */
  lemma QuietInv(g: Global, h: Global, n: NodeId)
    requires Inv(g) && Quiet(g, h, n) && h.core[n].log == g.core[n].log
    requires LogsOk(h) && VotesOk(h) && VotedFor(h) && CommitsOk(h)
    ensures Inv(h)
  {
    QuietLeaders(g, h, n);
    QuietAcks(g, h, n);
    QuietComplete(g, h, n);
    QuietKept(g, h, n);
  }

  /** A raised bound keeps a log good and its committed prefix committed. */
  lemma LaterBound(g: Global, log: seq<Entry>, c: nat, x: nat, y: nat)
    requires WellFormed(g) && GoodLog(g, log, x) && Committed(g, log, c, x) && x <= y
    ensures GoodLog(g, log, y) && Committed(g, log, c, y)
  {
    forall k {:trigger EntryOk(g, log, k)} | 0 <= k < |log| ensures EntryOk(g, log, k) && log[k].term <= y {
      assert EntryOk(g, log, k);
    }
    if c > 0 {
      var t, i :| CommitWitness(g, log, c, x, t, i);
      assert CommitWitness(g, log, c, y, t, i);
    }
  }

  /** A quiet step that keeps log and commit index; a new campaign uses the present log. */
  lemma LaterTermLogs(g: Global, h: Global, n: NodeId)
    requires Quiet(g, h, n) && LogsOk(g) && CommitsOk(g)
    requires h.core[n].log == g.core[n].log && h.core[n].commit == g.core[n].commit
    requires forall t, c :: (t, c) in h.candLog && (t, c) !in g.candLog ==>
               t == g.core[n].term + 1 && h.candLog[(t, c)] == g.core[n].log
    ensures LogsOk(h) && CommitsOk(h)
  {
    hide GoodLog, Committed;
    LaterBound(g, g.core[n].log, g.core[n].commit, g.core[n].term, h.core[n].term);
    QuietLogs(g, h, n);
    QuietCommits(g, h, n);
  }

  // ---- terms and votes --------------------------------------------------

  ghost function SetCore(g: Global, n: NodeId, c: Core): Global {
    g.(core := g.core[n := c])
  }

  lemma AdoptTermVotes(g: Global, h: Global, n: NodeId, t: nat)
    requires WellFormed(g) && VotesOk(g) && VotedFor(g) && n in g.ids && t > g.core[n].term
    requires h == SetCore(g, n, g.core[n].(term := t, vote := None))
    ensures WellFormed(h) && Quiet(g, h, n) && VotesOk(h) && VotedFor(h)
  {
    QuietVotedFor(g, h, n);
  }

  /** A member learns of a later term. */
  lemma AdoptTerm(g: Global, n: NodeId, t: nat) returns (h: Global)
    requires Inv(g) && n in g.ids && t > g.core[n].term
    ensures h == SetCore(g, n, g.core[n].(term := t, vote := None))
    ensures Inv(h) && StepBy(g, h, n)
  {
    h := SetCore(g, n, g.core[n].(term := t, vote := None));
    AdoptTermVotes(g, h, n, t);
    LaterTermLogs(g, h, n);
    QuietInv(g, h, n);
  }

  lemma CampaignVotes(g: Global, h: Global, n: NodeId, t: nat)
    requires WellFormed(g) && VotesOk(g) && VotedFor(g) && Kept(g) && n in g.ids && t == g.core[n].term + 1
    requires h == SetCore(g, n, g.core[n].(term := t, vote := Some(n)))
                  .(candLog := g.candLog[(t, n) := g.core[n].log], votes := g.votes + {(n, t, n)})
    ensures WellFormed(h) && Quiet(g, h, n) && VotesOk(h) && VotedFor(h)
  {
    assert (t, n) !in g.candLog;
    assert StepBy(g, h, n);
    forall v, u, c, s, i |
      (v, u, c) in h.votes && (v, u, c) !in g.votes && s < u && Own(g, s, i) && Acked(g, v, s, i)
      ensures Prefix(g, s, i) <= h.candLog[(u, c)] || Lost(g, s, i, u)
    {
      assert v == n && u == t && c == n;
    }
    QuietVotedFor(g, h, n);
  }

  /** A member opens an election in the next term, voting for itself. */
  lemma Campaign(g: Global, n: NodeId) returns (h: Global)
    requires Inv(g) && n in g.ids
    ensures var t := g.core[n].term + 1;
            h == SetCore(g, n, g.core[n].(term := t, vote := Some(n)))
                 .(candLog := g.candLog[(t, n) := g.core[n].log], votes := g.votes + {(n, t, n)})
    ensures Inv(h) && StepBy(g, h, n)
  {
    var t := g.core[n].term + 1;
    h := SetCore(g, n, g.core[n].(term := t, vote := Some(n)))
         .(candLog := g.candLog[(t, n) := g.core[n].log], votes := g.votes + {(n, t, n)});
    CampaignVotes(g, h, n, t);
    LaterTermLogs(g, h, n);
    QuietInv(g, h, n);
  }

  function LastTerm(log: seq<Entry>): nat {
    if log == [] then 0 else log[|log| - 1].term
  }

  /** The vote test: `a` is at least as up to date as `b`. */
  predicate UpToDate(a: seq<Entry>, b: seq<Entry>) {
    LastTerm(a) > LastTerm(b) || (LastTerm(a) == LastTerm(b) && |a| >= |b|)
  }

  lemma SameTermExtends(g: Global, a: seq<Entry>, b: seq<Entry>, x: nat, y: nat)
    requires WellFormed(g) && GoodLog(g, a, x) && GoodLog(g, b, y)
    requires b != [] && |a| >= |b| && LastTerm(a) == LastTerm(b)
    ensures b <= a
  {
    assert EntryOk(g, a, |a| - 1) && EntryOk(g, b, |b| - 1);
    assert b == b[..|b|] && a == a[..|a|];
  }

  lemma LaterTermExtends(g: Global, a: seq<Entry>, x: nat, p: seq<Entry>)
    requires WellFormed(g) && GoodLog(g, a, x) && a != []
    requires var r := LastTerm(a); r in g.leaderOf && GoodLog(g, g.leaderLog[r], r) && p <= g.leaderLog[r]
    requires p != [] && LastTerm(p) < LastTerm(a)
    ensures p <= a
  {
    var r := LastTerm(a);
    assert EntryOk(g, a, |a| - 1);
    assert a == a[..|a|];
    assert |a| < |p| ==> Ordered(g.leaderLog[r], |a| - 1, |p| - 1);
  }

  /** A log that passes the vote test holds what the voter's log holds, or a leader lost it before. */
  lemma UpToDateKeeps(g: Global, a: seq<Entry>, b: seq<Entry>, u: nat, x: nat, t: nat, i: nat)
    requires WellFormed(g) && u > 0 && GoodLog(g, a, u - 1) && GoodLog(g, b, x) && UpToDate(a, b)
    requires forall r :: r in g.leaderOf ==> GoodLog(g, g.leaderLog[r], r) && Init(g, r) <= g.leaderLog[r]
    requires Own(g, t, i) && Prefix(g, t, i) <= b
    ensures Prefix(g, t, i) <= a || Lost(g, t, i, u)
  {
    var p := Prefix(g, t, i);
    assert EntryOk(g, b, i - 1) && Ordered(b, i - 1, |b| - 1) && b[i - 1] == p[i - 1];
    assert EntryOk(g, a, |a| - 1);
    var r := LastTerm(a);
    if r == LastTerm(b) {
      SameTermExtends(g, a, b, u - 1, x);
    } else if p <= Init(g, r) {
      LaterTermExtends(g, a, u - 1, p);
    }
  }

  lemma CastVoteKeeps(g: Global, n: NodeId, t: nat, c: NodeId)
    requires WellFormed(g) && LogsOk(g) && LeadersOk(g) && Kept(g)
    requires n in g.ids && t == g.core[n].term && (t, c) in g.candLog
    requires UpToDate(g.candLog[(t, c)], g.core[n].log)
    ensures forall s: nat, i: nat :: s < t && Own(g, s, i) && Acked(g, n, s, i) ==>
              Prefix(g, s, i) <= g.candLog[(t, c)] || Lost(g, s, i, t)
  {
    forall s: nat, i: nat | s < t && Own(g, s, i) && Acked(g, n, s, i) && Prefix(g, s, i) <= g.core[n].log
      ensures Prefix(g, s, i) <= g.candLog[(t, c)] || Lost(g, s, i, t)
    {
      UpToDateKeeps(g, g.candLog[(t, c)], g.core[n].log, t, t, s, i);
    }
  }

  lemma CastVoteVotes(g: Global, h: Global, n: NodeId, t: nat, c: NodeId)
    requires WellFormed(g) && VotesOk(g) && VotedFor(g)
    requires n in g.ids && t == g.core[n].term && (t, c) in g.candLog
    requires g.core[n].vote == None || g.core[n].vote == Some(c)
    requires forall s: nat, i: nat :: s < t && Own(g, s, i) && Acked(g, n, s, i) ==>
               Prefix(g, s, i) <= g.candLog[(t, c)] || Lost(g, s, i, t)
    requires h == SetCore(g, n, g.core[n].(vote := Some(c))).(votes := g.votes + {(n, t, c)})
    ensures WellFormed(h) && Quiet(g, h, n) && VotesOk(h) && VotedFor(h)
  {
    CastVoteFrame(g, h, n, t, c);
    hide VotesOk, VotedFor, StepBy, Own, Lost;
    QuietVotedFor(g, h, n);
  }

  lemma CastVoteFrame(g: Global, h: Global, n: NodeId, t: nat, c: NodeId)
    requires WellFormed(g) && VotesOk(g)
    requires n in g.ids && t == g.core[n].term && (t, c) in g.candLog
    requires g.core[n].vote == None || g.core[n].vote == Some(c)
    requires h == SetCore(g, n, g.core[n].(vote := Some(c))).(votes := g.votes + {(n, t, c)})
    ensures WellFormed(h) && Quiet(g, h, n) && VotesOk(h)
  {
  }

  /** A member votes for a candidate of its term whose log passes the vote test. */
  lemma CastVote(g: Global, n: NodeId, c: NodeId) returns (h: Global)
    requires Inv(g) && n in g.ids
    requires (g.core[n].term, c) in g.candLog
    requires g.core[n].vote == None || g.core[n].vote == Some(c)
    requires UpToDate(g.candLog[(g.core[n].term, c)], g.core[n].log)
    ensures h == SetCore(g, n, g.core[n].(vote := Some(c))).(votes := g.votes + {(n, g.core[n].term, c)})
    ensures Inv(h) && StepBy(g, h, n)
  {
    h := SetCore(g, n, g.core[n].(vote := Some(c))).(votes := g.votes + {(n, g.core[n].term, c)});
    CastVoteKeeps(g, n, g.core[n].term, c);
    CastVoteVotes(g, h, n, g.core[n].term, c);
    LaterTermLogs(g, h, n);
    QuietInv(g, h, n);
  }

  // ---- the log of a follower --------------------------------------------

  lemma GoodPrefix(g: Global, log: seq<Entry>, cut: seq<Entry>, bound: nat)
    requires WellFormed(g) && GoodLog(g, log, bound) && cut <= log
    ensures GoodLog(g, cut, bound)
  {
    forall k {:trigger EntryOk(g, cut, k)} | 0 <= k < |cut| ensures EntryOk(g, cut, k) && cut[k].term <= bound {
      assert EntryOk(g, log, k);
      assert cut[..k + 1] == log[..k + 1];
    }
    forall j, k {:trigger Ordered(cut, j, k)} | 0 <= j <= k < |cut| ensures Ordered(cut, j, k) {
      assert Ordered(log, j, k);
    }
  }

  /** Replacing a log by a prefix of the leader's that it does not already hold loses only what that leader lost. */
  lemma ReplaceKeeps(g: Global, before: seq<Entry>, after: seq<Entry>, u: nat, t: nat, i: nat)
    requires WellFormed(g) && u in g.leaderOf && Init(g, u) <= g.leaderLog[u]
    requires after <= g.leaderLog[u] && !(after <= before)
    requires Own(g, t, i) && t <= u && Prefix(g, t, i) <= before
    ensures Prefix(g, t, i) <= after || Lost(g, t, i, u)
  {
    var p := Prefix(g, t, i);
    if !(p <= after) {
      if |after| < |p| {
        assert !(after <= p);
      }
      assert !(p <= g.leaderLog[u]);
      assert t < u;
    }
  }

  lemma AcceptKept(g: Global, h: Global, n: NodeId, after: seq<Entry>)
    requires WellFormed(g) && AcksOk(g) && LeadersOk(g) && Kept(g) && n in g.ids
    requires h == SetCore(g, n, g.core[n].(log := after)) && Quiet(g, h, n)
    requires var u := g.core[n].term; u in g.leaderOf && after <= g.leaderLog[u] && !(after <= g.core[n].log)
    ensures Kept(h)
  {
    var u := g.core[n].term;
    forall t, i | Own(g, t, i) && Acked(g, n, t, i) && Prefix(g, t, i) <= g.core[n].log
      ensures Prefix(g, t, i) <= h.core[n].log || Lost(g, t, i, h.core[n].term)
    {
      assert t <= u by {
        var j :| i <= j && (n, t, j) in g.acks;
      }
      ReplaceKeeps(g, g.core[n].log, after, u, t, i);
    }
    QuietKept(g, h, n);
  }

  lemma CoreVotes(g: Global, h: Global, n: NodeId, c: Core)
    requires WellFormed(g) && VotesOk(g) && VotedFor(g) && n in g.ids
    requires h == SetCore(g, n, c) && c.term == g.core[n].term && c.vote == g.core[n].vote
    ensures WellFormed(h) && Quiet(g, h, n) && VotesOk(h) && VotedFor(h)
  {
    QuietVotedFor(g, h, n);
  }

  /** A follower replaces its log by a prefix of its leader's; what it committed stays. */
  lemma Accept(g: Global, n: NodeId, after: seq<Entry>) returns (h: Global)
    requires Inv(g) && n in g.ids
    requires var u := g.core[n].term; u in g.leaderOf && after <= g.leaderLog[u]
    requires !(after <= g.core[n].log)
    requires g.core[n].commit <= |after| && after[..g.core[n].commit] == g.core[n].log[..g.core[n].commit]
    ensures h == SetCore(g, n, g.core[n].(log := after))
    ensures Inv(h) && StepBy(g, h, n)
  {
    h := SetCore(g, n, g.core[n].(log := after));
    CoreVotes(g, h, n, g.core[n].(log := after));
    AcceptKept(g, h, n, after);
    GoodPrefix(g, g.leaderLog[g.core[n].term], after, g.core[n].term);
    SameCommit(g, g.core[n].log, after, g.core[n].commit, g.core[n].term);
    QuietLogs(g, h, n);
    QuietCommits(g, h, n);
    QuietLeaders(g, h, n);
    QuietAcks(g, h, n);
    QuietComplete(g, h, n);
  }

  lemma SameCommit(g: Global, a: seq<Entry>, b: seq<Entry>, c: nat, bound: nat)
    requires WellFormed(g) && Committed(g, a, c, bound) && c <= |b| && a[..c] == b[..c]
    ensures Committed(g, b, c, bound)
  {
    if c > 0 {
      var t, i :| CommitWitness(g, a, c, bound, t, i);
      assert CommitWitness(g, b, c, bound, t, i);
    }
  }

  /** A member learns that more of its log is committed. */
  lemma AdvanceCommit(g: Global, n: NodeId, c: nat) returns (h: Global)
    requires Inv(g) && n in g.ids && Committed(g, g.core[n].log, c, g.core[n].term)
    ensures h == SetCore(g, n, g.core[n].(commit := c))
    ensures Inv(h) && StepBy(g, h, n)
  {
    h := SetCore(g, n, g.core[n].(commit := c));
    CoreVotes(g, h, n, g.core[n].(commit := c));
    QuietLogs(g, h, n);
    QuietCommits(g, h, n);
    QuietInv(g, h, n);
  }

  // ---- leaders ----------------------------------------------------------

  ghost predicate Elected(g: Global, h: Global, n: NodeId, t: nat, q: set<NodeId>) {
    && WellFormed(g) && n in g.ids && t == g.core[n].term && t !in g.leaderOf
    && (t, n) in g.candLog && g.candLog[(t, n)] == g.core[n].log
    && Quorum(g.ids, q) && (forall v :: v in q ==> (v, t, n) in g.votes)
    && h == g.(leaderOf := g.leaderOf[t := n], leaderLog := g.leaderLog[t := g.core[n].log],
               electors := g.electors[t := q])
  }

  lemma ElectedFrame(g: Global, h: Global, n: NodeId, t: nat, q: set<NodeId>)
    requires Elected(g, h, n, t, q) && LogsOk(g)
    ensures StepBy(g, h, n)
    ensures forall s, i :: Own(h, s, i) ==> Own(g, s, i)
  {
    ElectedStep(g, h, n, t, q);
    hide StepBy, Quorum;
    forall s: nat, i: nat | Own(h, s, i) ensures Own(g, s, i) {
      assert s == t ==> EntryOk(g, g.candLog[(t, n)], i - 1);
    }
  }

  lemma ElectedStep(g: Global, h: Global, n: NodeId, t: nat, q: set<NodeId>)
    requires Elected(g, h, n, t, q)
    ensures WellFormed(h) && StepBy(g, h, n)
  {
    hide Quorum;
    assert WellFormed(h);
  }

  /** Every quorum of voters blocks what the new leader lacks. */
  lemma ElectedBlocks(g: Global, n: NodeId, u: nat, q: set<NodeId>, t: nat, i: nat)
    requires WellFormed(g) && VotesOk(g) && VotedFor(g) && Complete(g)
    requires u !in g.leaderOf && Quorum(g.ids, q) && (forall v :: v in q ==> (v, u, n) in g.votes)
    requires (u, n) in g.candLog && Own(g, t, i) && t < u && !(Prefix(g, t, i) <= g.candLog[(u, n)])
    ensures Blocked(g, t, i)
  {
    forall r | Quorum(g.ids, r) ensures Missed(g, r, t, i) {
      var v := QuorumsMeet(g.ids, q, r);
      assert (v, u, n) in g.votes;
      if Acked(g, v, t, i) {
        assert Lost(g, t, i, u);
        var w :| t < w <= u && w in g.leaderOf && !(Prefix(g, t, i) <= Init(g, w));
        assert Blocked(g, t, i);
      }
    }
  }

  lemma ElectedComplete(g: Global, h: Global, n: NodeId, t: nat, q: set<NodeId>)
    requires Elected(g, h, n, t, q) && StepBy(g, h, n)
    requires forall s, i :: Own(h, s, i) ==> Own(g, s, i)
    requires VotesOk(g) && VotedFor(g) && Complete(g)
    ensures Complete(h)
  {
    hide Blocked, VotesOk, VotedFor;
    forall s: nat, u: nat, i: nat | u in h.leaderOf && s < u && Own(h, s, i)
      ensures Prefix(h, s, i) <= Init(h, u) || Blocked(h, s, i)
    {
      OwnStays(g, h, n, s, i);
      if u == t && !(Prefix(g, s, i) <= g.candLog[(t, n)]) {
        ElectedBlocks(g, n, t, q, s, i);
      }
      if Blocked(g, s, i) {
        BlockedStays(g, h, n, s, i);
      }
    }
  }

  lemma ElectedKept(g: Global, h: Global, n: NodeId, t: nat, q: set<NodeId>)
    requires Elected(g, h, n, t, q) && StepBy(g, h, n)
    requires forall s, i :: Own(h, s, i) ==> Own(g, s, i)
    requires Kept(g)
    ensures Kept(h)
  {
    forall m, s, i | m in h.ids && Own(h, s, i) && Acked(h, m, s, i)
      ensures Prefix(h, s, i) <= h.core[m].log || Lost(h, s, i, h.core[m].term)
    {
      OwnStays(g, h, n, s, i);
      assert Acked(g, m, s, i);
      if Lost(g, s, i, g.core[m].term) {
        LostStays(g, h, n, s, i, g.core[m].term, h.core[m].term);
      }
    }
  }

  lemma ElectedVotedFor(g: Global, h: Global, n: NodeId, t: nat, q: set<NodeId>)
    requires Elected(g, h, n, t, q) && StepBy(g, h, n)
    requires forall s, i :: Own(h, s, i) ==> Own(g, s, i)
    requires VotesOk(g) && VotedFor(g)
    ensures VotesOk(h) && VotedFor(h)
  {
    forall v, u, c, s, i | (v, u, c) in h.votes && s < u && Own(h, s, i) && Acked(h, v, s, i)
      ensures Prefix(h, s, i) <= h.candLog[(u, c)] || Lost(h, s, i, u)
    {
      OwnStays(g, h, n, s, i);
      assert Acked(g, v, s, i);
      if Lost(g, s, i, u) {
        LostStays(g, h, n, s, i, u, u);
      }
    }
  }

  lemma ElectedLogs(g: Global, h: Global, n: NodeId, t: nat, q: set<NodeId>)
    requires Elected(g, h, n, t, q) && StepBy(g, h, n) && LogsOk(g)
    ensures LogsOk(h)
  {
    hide GoodLog, Quorum, StepBy;
    OldLogsGood(g, h, n);
    GoodLogGrows(g, h, n, g.core[n].log, t);
  }

  lemma ElectedLeaders(g: Global, h: Global, n: NodeId, t: nat, q: set<NodeId>)
    requires Elected(g, h, n, t, q) && StepBy(g, h, n) && LeadersOk(g) && AcksOk(g)
    ensures LeadersOk(h) && AcksOk(h)
  {
    forall u | u in h.leaderOf ensures u != t ==> Init(h, u) == Init(g, u) && h.electors[u] == g.electors[u] {
    }
  }

  /** A candidate with the votes of a quorum becomes the leader of its term. */
  lemma Elect(g: Global, n: NodeId, q: set<NodeId>) returns (h: Global)
    requires Inv(g) && n in g.ids
    requires var t := g.core[n].term;
             t !in g.leaderOf && (t, n) in g.candLog && g.candLog[(t, n)] == g.core[n].log
             && Quorum(g.ids, q) && forall v :: v in q ==> (v, t, n) in g.votes
    ensures var t := g.core[n].term;
            h == g.(leaderOf := g.leaderOf[t := n], leaderLog := g.leaderLog[t := g.core[n].log],
                    electors := g.electors[t := q])
    ensures Inv(h) && StepBy(g, h, n)
  {
    var t := g.core[n].term;
    h := g.(leaderOf := g.leaderOf[t := n], leaderLog := g.leaderLog[t := g.core[n].log],
            electors := g.electors[t := q]);
    ElectedFrame(g, h, n, t, q);
    ElectedComplete(g, h, n, t, q);
    ElectedKept(g, h, n, t, q);
    ElectedVotedFor(g, h, n, t, q);
    ElectedLogs(g, h, n, t, q);
    ElectedLeaders(g, h, n, t, q);
    OldCommits(g, h, n);
    CommittedStays(g, h, n, g.core[n].log, g.core[n].commit, t, t);
  }

  ghost predicate Appended(g: Global, h: Global, n: NodeId, t: nat, e: Entry) {
    && WellFormed(g) && n in g.ids && t == g.core[n].term && t > 0
    && t in g.leaderOf && g.leaderOf[t] == n && g.leaderLog[t] == g.core[n].log
    && e.term == t && e.index == |g.core[n].log| + 1
    && h == SetCore(g, n, g.core[n].(log := g.core[n].log + [e]))
            .(leaderLog := g.leaderLog[t := g.core[n].log + [e]])
  }

  ghost predicate NobodyAcked(h: Global, t: nat, i: nat) {
    forall m :: !Acked(h, m, t, i)
  }

  lemma AppendedFrame(g: Global, h: Global, n: NodeId, t: nat, e: Entry)
    requires Appended(g, h, n, t, e) && AcksOk(g)
    ensures StepBy(g, h, n)
    ensures forall s, i :: Own(h, s, i) ==> Own(g, s, i) || (s == t && i == |g.core[n].log| + 1)
    ensures NobodyAcked(h, t, |g.core[n].log| + 1)
  {
  }

  lemma AppendedLogs(g: Global, h: Global, n: NodeId, t: nat, e: Entry)
    requires Appended(g, h, n, t, e) && StepBy(g, h, n) && LogsOk(g)
    ensures LogsOk(h)
  {
    hide GoodLog, StepBy;
    OldLogsGood(g, h, n);
    GoodLogGrows(g, h, n, g.core[n].log, t);
    ExtendedGood(g, h, n, t, e);
  }

  lemma ExtendedGood(g: Global, h: Global, n: NodeId, t: nat, e: Entry)
    requires Appended(g, h, n, t, e) && StepBy(g, h, n) && GoodLog(h, g.core[n].log, t)
    ensures GoodLog(h, g.core[n].log + [e], t)
  {
    var log := g.core[n].log;
    var ext := log + [e];
    forall k {:trigger EntryOk(h, ext, k)} | 0 <= k < |ext| ensures EntryOk(h, ext, k) && ext[k].term <= t {
      if k < |log| {
        assert EntryOk(h, log, k);
        assert ext[..k + 1] == log[..k + 1];
      }
    }
    forall j, k {:trigger Ordered(ext, j, k)} | 0 <= j <= k < |ext| ensures Ordered(ext, j, k) {
      if k < |log| {
        assert Ordered(log, j, k);
      } else if j < |log| {
        assert EntryOk(h, log, j);
      }
    }
  }

  lemma AppendedLeaders(g: Global, h: Global, n: NodeId, t: nat, e: Entry)
    requires Appended(g, h, n, t, e) && StepBy(g, h, n) && LeadersOk(g) && AcksOk(g)
    ensures LeadersOk(h) && AcksOk(h)
  {
    forall u | u in h.leaderOf ensures Init(h, u) == Init(g, u) && h.electors[u] == g.electors[u] {
    }
  }

  /** An entry a deposed leader still appends is blocked by the voters of the later leader. */
  lemma AppendedBlocked(g: Global, h: Global, n: NodeId, t: nat, e: Entry, u: nat)
    requires Appended(g, h, n, t, e) && StepBy(g, h, n) && LeadersOk(g) && VotesOk(g) && AcksOk(g)
    requires u in g.leaderOf && t < u
    ensures Blocked(h, t, |g.core[n].log| + 1)
  {
    var i := |g.core[n].log| + 1;
    forall r | Quorum(h.ids, r) ensures Missed(h, r, t, i) {
      var v := QuorumsMeet(g.ids, g.electors[u], r);
      assert (v, u, g.leaderOf[u]) in g.votes;
      assert !Acked(h, v, t, i);
      assert h.core[v].term > t;
    }
  }

  lemma AppendedComplete(g: Global, h: Global, n: NodeId, t: nat, e: Entry)
    requires Appended(g, h, n, t, e) && StepBy(g, h, n)
    requires forall s, i :: Own(h, s, i) ==> Own(g, s, i) || (s == t && i == |g.core[n].log| + 1)
    requires LeadersOk(g) && VotesOk(g) && AcksOk(g) && Complete(g)
    ensures Complete(h)
  {
    forall s: nat, u: nat, i: nat | u in h.leaderOf && s < u && Own(h, s, i)
      ensures Prefix(h, s, i) <= Init(h, u) || Blocked(h, s, i)
    {
      if Own(g, s, i) {
        OwnStays(g, h, n, s, i);
        if Blocked(g, s, i) {
          BlockedStays(g, h, n, s, i);
        }
      } else {
        AppendedBlocked(g, h, n, t, e, u);
      }
    }
  }

  lemma AppendedKept(g: Global, h: Global, n: NodeId, t: nat, e: Entry)
    requires Appended(g, h, n, t, e) && StepBy(g, h, n)
    requires forall s, i :: Own(h, s, i) ==> Own(g, s, i) || (s == t && i == |g.core[n].log| + 1)
    requires NobodyAcked(h, t, |g.core[n].log| + 1)
    requires Kept(g)
    ensures Kept(h)
  {
    forall m, s, i | m in h.ids && Own(h, s, i) && Acked(h, m, s, i)
      ensures Prefix(h, s, i) <= h.core[m].log || Lost(h, s, i, h.core[m].term)
    {
      assert Own(g, s, i);
      OwnStays(g, h, n, s, i);
      assert Acked(g, m, s, i);
      if Lost(g, s, i, g.core[m].term) {
        LostStays(g, h, n, s, i, g.core[m].term, h.core[m].term);
      }
    }
  }

  lemma AppendedVotedFor(g: Global, h: Global, n: NodeId, t: nat, e: Entry)
    requires Appended(g, h, n, t, e) && StepBy(g, h, n)
    requires forall s, i :: Own(h, s, i) ==> Own(g, s, i) || (s == t && i == |g.core[n].log| + 1)
    requires NobodyAcked(h, t, |g.core[n].log| + 1)
    requires VotesOk(g) && VotedFor(g)
    ensures VotesOk(h) && VotedFor(h)
  {
    forall v, u, c, s, i | (v, u, c) in h.votes && s < u && Own(h, s, i) && Acked(h, v, s, i)
      ensures Prefix(h, s, i) <= h.candLog[(u, c)] || Lost(h, s, i, u)
    {
      assert Own(g, s, i);
      OwnStays(g, h, n, s, i);
      assert Acked(g, v, s, i);
      if Lost(g, s, i, u) {
        LostStays(g, h, n, s, i, u, u);
      }
    }
  }

  lemma AppendedCommits(g: Global, h: Global, n: NodeId, t: nat, e: Entry)
    requires Appended(g, h, n, t, e) && StepBy(g, h, n) && CommitsOk(g)
    ensures CommitsOk(h)
  {
    OldCommits(g, h, n);
    SameCommit(g, g.core[n].log, g.core[n].log + [e], g.core[n].commit, t);
    CommittedStays(g, h, n, g.core[n].log + [e], g.core[n].commit, t, t);
  }

  lemma AppendedInv(g: Global, h: Global, n: NodeId, t: nat, e: Entry)
    requires Inv(g) && Appended(g, h, n, t, e)
    ensures Inv(h) && StepBy(g, h, n)
  {
    AppendedFrame(g, h, n, t, e);
    AppendedLogs(g, h, n, t, e);
    AppendedLeaders(g, h, n, t, e);
    AppendedComplete(g, h, n, t, e);
    AppendedKept(g, h, n, t, e);
    AppendedVotedFor(g, h, n, t, e);
    AppendedCommits(g, h, n, t, e);
  }

  /** A leader appends an entry of its term to its log. */
  lemma Append(g: Global, n: NodeId, e: Entry) returns (h: Global)
    requires Inv(g) && n in g.ids
    requires var t := g.core[n].term;
             t > 0 && t in g.leaderOf && g.leaderOf[t] == n && g.leaderLog[t] == g.core[n].log
             && e.term == t && e.index == |g.core[n].log| + 1
    ensures var log := g.core[n].log + [e];
            h == SetCore(g, n, g.core[n].(log := log)).(leaderLog := g.leaderLog[g.core[n].term := log])
    ensures Inv(h) && StepBy(g, h, n)
  {
    var t := g.core[n].term;
    h := SetCore(g, n, g.core[n].(log := g.core[n].log + [e]))
         .(leaderLog := g.leaderLog[t := g.core[n].log + [e]]);
    AppendedInv(g, h, n, t, e);
  }

  // ---- acknowledgements -------------------------------------------------

  ghost predicate Acknowledged(g: Global, h: Global, n: NodeId, t: nat, j: nat) {
    && WellFormed(g) && n in g.ids && t == g.core[n].term && t in g.leaderOf
    && j <= |g.core[n].log| && j <= |g.leaderLog[t]| && g.core[n].log[..j] == g.leaderLog[t][..j]
    && h == g.(acks := g.acks + {(n, t, j)})
  }

  lemma AcknowledgedFrame(g: Global, h: Global, n: NodeId, t: nat, j: nat)
    requires Acknowledged(g, h, n, t, j) && LeadersOk(g) && AcksOk(g)
    ensures StepBy(g, h, n) && LeadersOk(h) && AcksOk(h)
  {
  }

  lemma AcknowledgedKept(g: Global, h: Global, n: NodeId, t: nat, j: nat)
    requires Acknowledged(g, h, n, t, j) && StepBy(g, h, n) && Kept(g)
    ensures Kept(h)
  {
    forall m, s, i | m in h.ids && Own(h, s, i) && Acked(h, m, s, i)
      ensures Prefix(h, s, i) <= h.core[m].log || Lost(h, s, i, h.core[m].term)
    {
      OwnStays(g, h, n, s, i);
      if Acked(g, m, s, i) {
        if Lost(g, s, i, g.core[m].term) {
          LostStays(g, h, n, s, i, g.core[m].term, h.core[m].term);
        }
      } else {
        var x :| i <= x && (m, s, x) in h.acks;
        assert m == n && s == t && x == j;
        PrefixCut(g.leaderLog[t], g.core[n].log, j, i);
      }
    }
  }

  lemma AcknowledgedVotedFor(g: Global, h: Global, n: NodeId, t: nat, j: nat)
    requires Acknowledged(g, h, n, t, j) && StepBy(g, h, n) && VotesOk(g) && VotedFor(g)
    ensures VotesOk(h) && VotedFor(h)
  {
    forall v, u, c, s, i | (v, u, c) in h.votes && s < u && Own(h, s, i) && Acked(h, v, s, i)
      ensures Prefix(h, s, i) <= h.candLog[(u, c)] || Lost(h, s, i, u)
    {
      OwnStays(g, h, n, s, i);
      AckedStays(g, h, n, v, s, i);
      assert Acked(g, v, s, i);
      if Lost(g, s, i, u) {
        LostStays(g, h, n, s, i, u, u);
      }
    }
  }

  lemma AcknowledgedComplete(g: Global, h: Global, n: NodeId, t: nat, j: nat)
    requires Acknowledged(g, h, n, t, j) && StepBy(g, h, n) && Complete(g)
    ensures Complete(h)
  {
    forall s: nat, u: nat, i: nat | u in h.leaderOf && s < u && Own(h, s, i)
      ensures Prefix(h, s, i) <= Init(h, u) || Blocked(h, s, i)
    {
      OwnStays(g, h, n, s, i);
      if Blocked(g, s, i) {
        BlockedStays(g, h, n, s, i);
      }
    }
  }

  lemma AcknowledgedLogs(g: Global, h: Global, n: NodeId, t: nat, j: nat)
    requires Acknowledged(g, h, n, t, j) && StepBy(g, h, n) && LogsOk(g) && CommitsOk(g)
    ensures LogsOk(h) && CommitsOk(h)
  {
    hide GoodLog, Committed, StepBy;
    OldLogsGood(g, h, n);
    GoodLogGrows(g, h, n, g.core[n].log, t);
    OldCommits(g, h, n);
    CommittedStays(g, h, n, g.core[n].log, g.core[n].commit, t, t);
  }

  lemma AcknowledgedInv(g: Global, h: Global, n: NodeId, t: nat, j: nat)
    requires Inv(g) && Acknowledged(g, h, n, t, j)
    ensures Inv(h) && StepBy(g, h, n)
  {
    AcknowledgedFrame(g, h, n, t, j);
    AcknowledgedLogs(g, h, n, t, j);
    AcknowledgedKept(g, h, n, t, j);
    AcknowledgedVotedFor(g, h, n, t, j);
    AcknowledgedComplete(g, h, n, t, j);
  }

  /** A member acknowledges a prefix on which it agrees with the leader of its term. */
  lemma Acknowledge(g: Global, n: NodeId, j: nat) returns (h: Global)
    requires Inv(g) && n in g.ids
    requires var t := g.core[n].term;
             t in g.leaderOf && j <= |g.core[n].log| && j <= |g.leaderLog[t]|
             && g.core[n].log[..j] == g.leaderLog[t][..j]
    ensures h == g.(acks := g.acks + {(n, g.core[n].term, j)})
    ensures Inv(h) && StepBy(g, h, n)
  {
    var t := g.core[n].term;
    h := g.(acks := g.acks + {(n, t, j)});
    AcknowledgedInv(g, h, n, t, j);
  }
}
