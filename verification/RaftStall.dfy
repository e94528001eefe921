/**
 * A run of two members, with one refusal delivered twice, that ends where a
 * leader and its follower are stuck: the branch of the splice loop that was
 * thought impossible from a real leader is reached.
 */
module RaftStall {
  import opened Model
  import opened RaftSpec
  import opened RaftCluster
  import opened RaftScenes
  import R = RaftRefusals
  import L = RaftLocal

  // ---- reachable states -------------------------------------------------

  /** How the members run: their timing, and the least live log a member compacts. */
  datatype Terms = Terms(cfg: Config, threshold: nat)

  ghost predicate Configured(terms: Terms, c: Cluster) {
    forall n :: n in c.member ==> c.member[n].raft.cfg == terms.cfg
  }

  /** Nobody compacts a log shorter than the threshold. */
  ghost predicate Paced(terms: Terms, c: Cluster, e: Event) {
    e.Compacts? && e.n in c.member ==> |c.member[e.n].raft.log| >= terms.threshold
  }

  ghost predicate RunUnder(boot: Replicated, terms: Terms, b: seq<Cluster>, ev: seq<Event>) {
    && Run(boot, b, ev) && Configured(terms, b[0])
    && (forall i :: 0 <= i < |ev| ==> Paced(terms, b[i], ev[i]))
  }

  ghost predicate Reached(boot: Replicated, terms: Terms, c: Cluster) {
    exists b, ev :: RunUnder(boot, terms, b, ev) && b[|b| - 1] == c
  }

  lemma ReachedStart(boot: Replicated, terms: Terms, c: Cluster)
    requires Start(boot, c) && Configured(terms, c)
    ensures Reached(boot, terms, c)
  {
    assert RunUnder(boot, terms, [c], []);
  }

  lemma ReachedNext(boot: Replicated, terms: Terms, c: Cluster, e: Event, d: Cluster)
    requires Reached(boot, terms, c) && Next(boot, c, e, d) && Paced(terms, c, e)
    ensures Reached(boot, terms, d)
  {
    hide Next, Start, Configured, Paced;
    var b, ev :| RunUnder(boot, terms, b, ev) && b[|b| - 1] == c;
    var b', ev' := b + [d], ev + [e];
    forall i | 0 <= i < |ev'| ensures Next(boot, b'[i], ev'[i], b'[i + 1]) && Paced(terms, b'[i], ev'[i]) {
      if i < |ev| {
        assert b'[i] == b[i] && b'[i + 1] == b[i + 1] && ev'[i] == ev[i];
        assert Paced(terms, b[i], ev[i]);
      }
    }
    assert b'[0] == b[0];
    assert RunUnder(boot, terms, b', ev');
  }

  /** `n` has taken a step: only it changed, and what it sent is on the net for good. */
  ghost predicate Advanced(c: Cluster, n: NodeId, r: State, sent: seq<Addressed>, d: Cluster) {
    && d.member.Keys == c.member.Keys && n in d.member && d.member[n].raft == r
    && (forall m :: m in c.member && m != n ==> d.member[m] == c.member[m])
    && c.net <= d.net && (forall a :: a in sent ==> Packet(n, a.to, a.msg) in d.net)
  }

  lemma Drained(boot: Replicated, terms: Terms, c: Cluster, e: Event) returns (d: Cluster)
    requires Reached(boot, terms, c) && Callable(c, e)
    ensures Reached(boot, terms, d)
    ensures var (ready, r) := TakeReady(Called(c.member[Actor(e)].raft, e)); Advanced(c, Actor(e), r, ready.messages, d)
  {
    hide Reached, Called;
    d := Drain(c, Actor(e), Called(c.member[Actor(e)].raft, e));
    ReachedNext(boot, terms, c, e, d);
  }

  /** A tick of `n`. */
  lemma Ticked(boot: Replicated, terms: Terms, c: Cluster, n: NodeId) returns (d: Cluster)
    requires Reached(boot, terms, c) && n in c.member
    ensures Reached(boot, terms, d)
    ensures var (ready, r) := TakeReady(Tick(c.member[n].raft)); Advanced(c, n, r, ready.messages, d)
  {
    hide Reached;
    d := Drained(boot, terms, c, Ticks(n));
  }

  /** `n` receives a packet that was once sent to it. */
  lemma Received(boot: Replicated, terms: Terms, c: Cluster, from: NodeId, n: NodeId, msg: Message) returns (d: Cluster)
    requires Reached(boot, terms, c) && n in c.member && Packet(from, n, msg) in c.net
    ensures Reached(boot, terms, d)
    ensures var (ready, r) := TakeReady(Step(c.member[n].raft, from, msg)); Advanced(c, n, r, ready.messages, d)
  {
    hide Reached;
    d := Drained(boot, terms, c, Receives(Packet(from, n, msg)));
  }

  lemma Proposed(boot: Replicated, terms: Terms, c: Cluster, n: NodeId, command: Command) returns (d: Cluster)
    requires Reached(boot, terms, c) && n in c.member
    ensures Reached(boot, terms, d)
    ensures var (ready, r) := TakeReady(Propose(c.member[n].raft, command)); Advanced(c, n, r, ready.messages, d)
  {
    hide Reached;
    d := Drained(boot, terms, c, Proposes(n, command));
  }

  /** Only `n` may have changed. */
  ghost predicate Apart(c: Cluster, n: NodeId, d: Cluster) {
    && d.member.Keys == c.member.Keys && c.net <= d.net
    && (forall m :: m in c.member && m != n ==> d.member[m] == c.member[m])
  }

  /** A follower left alone ticks until its patience is about to end. */
  lemma {:induction false} WaitedOut(boot: Replicated, terms: Terms, c: Cluster, n: NodeId, peers: seq<NodeId>,
                                     term: nat, vote: Option<NodeId>, log: seq<Entry>) returns (d: Cluster)
    requires Reached(boot, terms, c) && n in c.member && Plain(c.member[n].raft, n, peers, term, vote, log, Follower)
    ensures Reached(boot, terms, d) && Apart(c, n, d)
    ensures var s, r := c.member[n].raft, d.member[n].raft;
            Plain(r, n, peers, term, vote, log, Follower) && Due(r) && r.commitIndex == s.commitIndex
    decreases c.member[n].raft.electionTimeout - c.member[n].raft.electionElapsed
  {
    hide Reached, Plain, Tick, TakeReady;
    d := c;
    if !Due(c.member[n].raft) {
      Waits(c.member[n].raft, n, peers, term, vote, log);
      d := Ticked(boot, terms, c, n);
      d := WaitedOut(boot, terms, d, n, peers, term, vote, log);
    }
  }

  /** So does a leader nobody answers, and then it steps down. */
  lemma {:induction false} GivenUp(boot: Replicated, terms: Terms, c: Cluster, n: NodeId, peers: seq<NodeId>, term: nat,
                                   log: seq<Entry>) returns (d: Cluster)
    requires Reached(boot, terms, c) && n in c.member && peers != []
    requires Leads(c.member[n].raft, n, peers, term, log) && c.member[n].raft.ackedSinceCheck == {}
    ensures Reached(boot, terms, d) && Apart(c, n, d)
    ensures var s, r := c.member[n].raft, d.member[n].raft;
            Plain(r, n, peers, term, Some(n), log, Follower) && r.commitIndex == s.commitIndex
    decreases c.member[n].raft.electionTimeout - c.member[n].raft.electionElapsed
  {
    hide Reached, Plain, Leads, Tick, TakeReady;
    if Due(c.member[n].raft) {
      GivesUp(c.member[n].raft, n, peers, term, log);
      d := Ticked(boot, terms, c, n);
    } else {
      Persists(c.member[n].raft, n, peers, term, log);
      d := Ticked(boot, terms, c, n);
      d := GivenUp(boot, terms, d, n, peers, term, log);
    }
  }

  // ---- the run ----------------------------------------------------------

  ghost predicate Pair(c: Cluster, a: NodeId, b: NodeId) { a != b && c.member.Keys == {a, b} }

  /** Member `a` is elected in the next term by `b`, whose log is empty. */
  lemma Election(boot: Replicated, terms: Terms, c: Cluster, a: NodeId, b: NodeId, term: nat, va: Option<NodeId>,
                 vb: Option<NodeId>, log: seq<Entry>) returns (d: Cluster)
    requires Reached(boot, terms, c) && Pair(c, a, b)
    requires var s, f := c.member[a].raft, c.member[b].raft;
             && Plain(s, a, [b], term, va, log, Follower) && s.commitIndex == 0
             && Plain(f, b, [a], term, vb, [], Follower) && f.commitIndex == 0 && f.leaderId.None?
    ensures Reached(boot, terms, d) && Pair(d, a, b)
    ensures var s, f := d.member[a].raft, d.member[b].raft;
            var noop := Entry(term + 1, |log| + 1, None);
            && Leads(s, a, [b], term + 1, log + [noop]) && s.ackedSinceCheck == {} && s.commitIndex == 0
            && s.nextIndex[b] == |log| + 1 && s.matchIndex[b] == 0
            && Plain(f, b, [a], term + 1, Some(a), [], Follower) && f.commitIndex == 0 && f.leaderId.None?
            && Packet(a, b, AppendEntries(term + 1, a, |log|, EndTerm(log), [noop], 0)) in d.net
  {
    hide Reached, Plain, Tick, Step, TakeReady;
    assert b in [b] && a in [a];
    var ask := RequestVote(term + 1, a, |log|, EndTerm(log), true);
    var vote := RequestVote(term + 1, a, |log|, EndTerm(log), false);
    var c0 := WaitedOut(boot, terms, c, a, [b], term, va, log);
    AsksFirst(c0.member[a].raft, a, [b], term, va, log, b);
    var c1 := Ticked(boot, terms, c0, a);
    EmptyLogOk(c1.member[b].raft, b, [a], term, vb, ask);
    PreGrants(c1.member[b].raft, b, [a], term, vb, [], a, ask);
    var c2 := Received(boot, terms, c1, a, b, ask);
    Campaigns(c2.member[a].raft, a, [b], term, va, log, b);
    var c3 := Received(boot, terms, c2, b, a, RequestVoteResp(term, true, true));
    EmptyLogOk(c3.member[b].raft, b, [a], term, vb, vote);
    Grants(c3.member[b].raft, b, [a], term, vb, [], a, vote);
    var c4 := Received(boot, terms, c3, a, b, vote);
    Wins(c4.member[a].raft, a, [b], term + 1, log, b);
    d := Received(boot, terms, c4, b, a, RequestVoteResp(term + 1, true, false));
  }

  /** Both members before anything has happened. */
  lemma Beginning(boot: Replicated, terms: Terms, a: NodeId, b: NodeId) returns (c: Cluster)
    requires a != b
    ensures Reached(boot, terms, c) && Pair(c, a, b)
    ensures var s, f := c.member[a].raft, c.member[b].raft;
            && Plain(s, a, [b], 0, None, [], Follower) && s.commitIndex == 0
            && Plain(f, b, [a], 0, None, [], Follower) && f.commitIndex == 0 && f.leaderId.None?
  {
    hide Plain, Reached, StartsFresh;
    var s := Starting(boot, {a, b}, terms.cfg, a, [b]);
    var f := Starting(boot, {a, b}, terms.cfg, b, [a]);
    c := Cluster(map[a := s, b := f], {});
    assert c.member.Keys == {a, b};
    ReachedStart(boot, terms, c);
  }

  lemma Starting(boot: Replicated, ids: set<NodeId>, cfg: Config, me: NodeId, peers: seq<NodeId>) returns (m: Member)
    requires 1 <= |peers| <= 2 && Distinct(peers) && forall p :: p in peers <==> p in ids && p != me
    ensures StartsFresh(boot, ids, me, m) && m.raft.cfg == cfg
    ensures Plain(m.raft, me, peers, 0, None, [], Follower) && m.raft.commitIndex == 0 && m.raft.leaderId.None?
  {
    hide Plain, New;
    var draws: nat -> nat := n => 0;
    NewIsPlain(me, peers, cfg, draws, 0, None);
    NewFields(me, peers, cfg, draws);
    m := Member(New(me, peers, cfg, draws, FRESH), FRESH, boot);
  }

  /** The refusal of an append that starts at index 1. */
  function Refusal(term: nat): Message { AppendEntriesResp(term, false, 0) }

  /** The no-ops of two leaderships, and then `k` times the command. */
  function LongLog(command: Command, k: nat): (log: seq<Entry>)
    ensures |log| == k + 2 && EndTerm(log) == 2 && Contiguous(0, 0, log, 2)
  {
    if k == 0 then [Entry(1, 1, None), Entry(2, 2, None)]
    else LongLog(command, k - 1) + [Entry(2, k + 2, Some(command))]
  }

  /** `a` leads term 2 with the log `log`, and does not know how much of it `b` has. */
  ghost predicate Leading(c: Cluster, a: NodeId, b: NodeId, log: seq<Entry>) {
    && Pair(c, a, b)
    && var s, f := c.member[a].raft, c.member[b].raft;
       && Leads(s, a, [b], 2, log) && s.nextIndex[b] == 2 && s.matchIndex[b] == 0 && s.commitIndex == 0
       && Plain(f, b, [a], 2, Some(a), [], Follower) && f.commitIndex == 0
  }

  /** A first leadership of `a` comes to nothing. */
  lemma FirstLeadership(boot: Replicated, terms: Terms, a: NodeId, b: NodeId) returns (d: Cluster)
    requires a != b
    ensures Reached(boot, terms, d) && Pair(d, a, b)
    ensures var s, f := d.member[a].raft, d.member[b].raft;
            && Plain(s, a, [b], 1, Some(a), [Entry(1, 1, None)], Follower) && s.commitIndex == 0
            && Plain(f, b, [a], 1, Some(a), [], Follower) && f.commitIndex == 0 && f.leaderId.None?
  {
    hide Reached, Plain;
    var c := Beginning(boot, terms, a, b);
    var c1 := Election(boot, terms, c, a, b, 0, None, None, []);
    assert [] + [Entry(1, 1, None)] == [Entry(1, 1, None)];
    d := GivenUp(boot, terms, c1, a, [b], 1, [Entry(1, 1, None)]);
  }

  /** After a first leadership that came to nothing, `a` leads term 2 and `b` has refused its first append. */
  lemma SecondLeadership(boot: Replicated, terms: Terms, a: NodeId, b: NodeId, command: Command) returns (d: Cluster)
    requires a != b
    ensures Reached(boot, terms, d) && Leading(d, a, b, LongLog(command, 0)) && Packet(b, a, Refusal(2)) in d.net
  {
    hide Reached, Plain, Tick, Step, TakeReady;
    assert b in [b] && a in [a];
    var first := Entry(1, 1, None);
    var c := FirstLeadership(boot, terms, a, b);
    var c3 := Election(boot, terms, c, a, b, 1, Some(a), Some(a), [first]);
    assert [first] + [Entry(2, 2, None)] == LongLog(command, 0);
    var req := AppendEntries(2, a, 1, 1, [Entry(2, 2, None)], 0);
    Refuses(c3.member[b].raft, b, [a], 2, Some(a), a, req);
    d := Received(boot, terms, c3, a, b, req);
  }

  /** Meanwhile proposals arrive at `a`. */
  lemma {:induction false} Piled(boot: Replicated, terms: Terms, c: Cluster, a: NodeId, b: NodeId, command: Command,
                                 k: nat) returns (d: Cluster)
    requires Reached(boot, terms, c) && Leading(c, a, b, LongLog(command, 0)) && Packet(b, a, Refusal(2)) in c.net
    ensures Reached(boot, terms, d) && Leading(d, a, b, LongLog(command, k)) && Packet(b, a, Refusal(2)) in d.net
  {
    hide Reached, Plain, Propose, TakeReady;
    d := c;
    if k > 0 {
      d := Piled(boot, terms, c, a, b, command, k - 1);
      var log := LongLog(command, k - 1);
      Grows(d.member[a].raft, a, [b], 2, log, command);
      assert log + [Entry(2, |log| + 1, Some(command))] == LongLog(command, k);
      d := Proposed(boot, terms, d, a, command);
    }
  }

  /** The refusal makes `a` resend everything; `b` catches up, and both commit. */
  lemma CatchesUp(boot: Replicated, terms: Terms, c: Cluster, a: NodeId, b: NodeId, log: seq<Entry>)
    returns (d: Cluster)
    requires Reached(boot, terms, c) && Leading(c, a, b, log) && Packet(b, a, Refusal(2)) in c.net
    requires log != [] && EndTerm(log) == 2 && Contiguous(0, 0, log, 2)
    ensures Reached(boot, terms, d) && Pair(d, a, b) && Packet(b, a, Refusal(2)) in d.net
    ensures var s, f := d.member[a].raft, d.member[b].raft;
            && Leads(s, a, [b], 2, log) && s.nextIndex[b] == |log| + 1 && s.commitIndex == |log|
            && Plain(f, b, [a], 2, Some(a), log, Follower) && f.commitIndex == |log|
  {
    hide Reached, Plain, Tick, Step, TakeReady, Contiguous;
    assert b in [b] && a in [a];
    assert EntriesAreContiguous(AppendEntries(2, a, 0, 0, log, 0));
    hide EntriesAreContiguous;
    GoesBack(c.member[a].raft, a, [b], 2, log, b);
    var c1 := Received(boot, terms, c, b, a, Refusal(2));
    TakesAll(c1.member[b].raft, b, [a], 2, Some(a), log, a);
    var c2 := Received(boot, terms, c1, a, b, AppendEntries(2, a, 0, 0, log, 0));
    CommitsAll(c2.member[a].raft, a, [b], 2, log, b);
    var c3 := Received(boot, terms, c2, b, a, AppendEntriesResp(2, true, |log|));
    LearnsCommit(c3.member[b].raft, b, [a], 2, Some(a), log, a);
    d := Received(boot, terms, c3, a, b, AppendEntries(2, a, |log|, 2, [], |log|));
  }

  lemma Folds(s: State, me: NodeId, peer: NodeId, log: seq<Entry>, sm: Replicated)
    requires Plain(s, me, [peer], 2, Some(peer), log, Follower) && s.commitIndex == |log| > 0
    requires EndTerm(log) == 2 && Contiguous(0, 0, log, 2)
    ensures var r := Compact(s, s.lastApplied, sm);
            r.id == me && r.baseIndex == |log| && r.currentTerm == 2 && L.Valid(r)
  {
    assert TermAt(s, |log|) == 2;
  }

  lemma LeaderFields(s: State, me: NodeId, peer: NodeId, log: seq<Entry>)
    requires Leads(s, me, [peer], 2, log) && s.commitIndex == |log| && Contiguous(0, 0, log, 2)
    ensures s.role == Leader && s.id == me && s.baseIndex == 0 && s.log == log && s.currentTerm == 2 && L.Valid(s)
  {
    hide Contiguous;
  }

  /**
   * The stall is reachable under any timing and any compaction threshold: two members,
   * one refusal delivered a second time after the follower has caught up and compacted,
   * and the leader resumes at the start with a follower that has folded those entries
   * away. What it then sends is refused for touching committed entries, and the refusal
   * moves nothing.
   */
  lemma StallReached(boot: Replicated, terms: Terms, a: NodeId, b: NodeId, command: Command) returns (d: Cluster)
    requires a != b
    ensures Reached(boot, terms, d) && a in d.member && b in d.member
    ensures var s, f := d.member[a].raft, d.member[b].raft;
            && s.role == Leader && s.id == a && f.id == b && s.baseIndex == 0 && b in s.nextIndex && s.nextIndex[b] == 1
            && L.Valid(s) && L.Valid(f) && s.log != [] && s.currentTerm == f.currentTerm && f.baseIndex >= 2
            && Packet(a, b, AppendEntries(s.currentTerm, a, 0, 0, s.log, s.commitIndex)) in d.net
            && !Splice(f, s.log, 0).ok
            && HandleAppendResp(s, b, Refusal(s.currentTerm)) == s.(ackedSinceCheck := s.ackedSinceCheck + {b})
  {
    hide Reached, Plain, Tick, Step, TakeReady, L.Valid, Splice, HandleAppendResp, SendAppend, AcceptAppend, Contiguous,
         LongLog;
    assert b in [b];
    var log := LongLog(command, terms.threshold);
    var c0 := SecondLeadership(boot, terms, a, b, command);
    var c := Piled(boot, terms, c0, a, b, command, terms.threshold);
    var c1 := CatchesUp(boot, terms, c, a, b, log);
    var m := c1.member[b];
    Folds(m.raft, b, a, log, m.sm);
    var c2 := c1.(member := c1.member[b := Compacted(m)]);
    LiveLog(m.raft, b, [a], log);
    ReachedNext(boot, terms, c1, Compacts(b), c2);
    GoesBack(c2.member[a].raft, a, [b], 2, log, b);
    d := Received(boot, terms, c2, b, a, Refusal(2));
    LeaderFields(d.member[a].raft, a, b, log);
    R.StuckAtStart(d.member[a].raft, d.member[b].raft);
  }

  lemma LiveLog(s: State, me: NodeId, peers: seq<NodeId>, log: seq<Entry>)
    requires peers != [] && Plain(s, me, peers, 2, Some(peers[0]), log, Follower)
    ensures s.log == log
  {
  }
}
