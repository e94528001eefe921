/**
 * What does not survive overlapping drains. A run of three members in which a
 * repeated append is acknowledged before it is saved, the leader commits and
 * reports success on that acknowledgement, one member crashes, and the leader of
 * the next term does not have the entry.
 */
module RaftLoss {
  import opened Model
  import opened RaftSpec
  import opened RaftOverlap
  import opened RaftScenes
  import C = RaftCluster
  import D = RaftDriver
  import K = RaftCommit
  import L = RaftLocal

  // ---- runs that pass through a moment ----------------------------------

  /** A run so far. */
  datatype Trace = Trace(states: seq<Group>, events: seq<Event>)

  ghost predicate Configured(cfg: Config, g: Group) {
    forall n :: n in g.member ==> g.member[n].raft.cfg == cfg
  }

  ghost predicate Traced(boot: Replicated, cfg: Config, tr: Trace) {
    Run(boot, tr.states, tr.events) && Configured(cfg, tr.states[0])
  }

  ghost predicate Extends(past: Trace, tr: Trace) { past.states <= tr.states && past.events <= tr.events }

  /** What all scenes of the run share: the state machine at first, the timing, and the run so far. */
  datatype Story = Story(boot: Replicated, cfg: Config, past: Trace)

  ghost predicate SeenBy(p: Story, tr: Trace, g: Group) {
    Traced(p.boot, p.cfg, tr) && Extends(p.past, tr) && tr.states[|tr.states| - 1] == g
  }

  /** Some run that continues the one so far ends in `g`. */
  ghost predicate Seen(p: Story, g: Group) { exists tr :: SeenBy(p, tr, g) }

  lemma SeenStart(boot: Replicated, cfg: Config, g: Group)
    requires Start(boot, g) && Configured(cfg, g)
    ensures Seen(Story(boot, cfg, Trace([g], [])), g)
  {
    assert SeenBy(Story(boot, cfg, Trace([g], [])), Trace([g], []), g);
  }

  lemma TraceNext(boot: Replicated, cfg: Config, tr: Trace, e: Event, h: Group) returns (next: Trace)
    requires Traced(boot, cfg, tr) && Next(boot, tr.states[|tr.states| - 1], e, h)
    ensures Traced(boot, cfg, next) && next == Trace(tr.states + [h], tr.events + [e])
  {
    hide Next, Start, Configured;
    next := Trace(tr.states + [h], tr.events + [e]);
    forall k | 0 <= k < |next.events| ensures Next(boot, next.states[k], next.events[k], next.states[k + 1]) {
      if k < |tr.events| {
        assert next.states[k] == tr.states[k] && next.states[k + 1] == tr.states[k + 1];
      }
    }
    assert next.states[0] == tr.states[0];
  }

  lemma SeenNext(p: Story, g: Group, e: Event, h: Group)
    requires Seen(p, g) && Next(p.boot, g, e, h)
    ensures Seen(p, h)
  {
    hide Next, Traced;
    var tr :| SeenBy(p, tr, g);
    TracedShape(p, tr, g);
    var next := TraceNext(p.boot, p.cfg, tr, e, h);
    assert SeenBy(p, next, h);
  }

  lemma TracedShape(p: Story, tr: Trace, g: Group)
    requires SeenBy(p, tr, g)
    ensures |tr.states| == |tr.events| + 1
  {
  }

  /** The run so far is now the one that ends here. */
  lemma SeenHere(p: Story, g: Group) returns (now: Story)
    requires Seen(p, g)
    ensures now.boot == p.boot && now.cfg == p.cfg && Extends(p.past, now.past)
    ensures SeenBy(now, now.past, g) && Seen(now, g)
  {
    hide Traced;
    var tr :| SeenBy(p, tr, g);
    now := Story(p.boot, p.cfg, tr);
    assert SeenBy(now, tr, g);
  }

  ghost predicate Idle(m: Member) { m.waiting == [] && m.writing.None? }

  /** Only `n` has changed, and what it sent is on the net for good. */
  ghost predicate Advanced(g: Group, n: NodeId, r: State, sent: seq<Addressed>, h: Group) {
    && h.member.Keys == g.member.Keys && n in h.member && h.member[n].raft == r
    && (forall m :: m in g.member && m != n ==> h.member[m] == g.member[m])
    && g.net <= h.net && (forall a :: a in sent ==> C.Packet(n, a.to, a.msg) in h.net)
  }

  predicate Possible(g: Group, event: C.Event) {
    event.Ticks? || event.Proposes? || (event.Receives? && event.packet in g.net)
  }

  lemma SentAll(g: Group, n: NodeId, m: Member, sent: seq<Addressed>)
    requires n in g.member
    ensures Advanced(g, n, m.raft, sent, Changed(g, n, m, sent))
  {
    var h := Changed(g, n, m, sent);
    forall a | a in sent ensures C.Packet(n, a.to, a.msg) in h.net {
      var k :| 0 <= k < |sent| && sent[k] == a;
    }
  }

  /** A call whose effects ask for no save: they go out at once. */
  lemma Hastily(p: Story, g: Group, n: NodeId, event: C.Event) returns (h: Group)
    requires Seen(p, g) && n in g.member && C.Actor(event) == n && Possible(g, event)
    requires TakeReady(C.Called(g.member[n].raft, event)).0.persist.None?
    ensures Seen(p, h)
    ensures var (ready, r) := TakeReady(C.Called(g.member[n].raft, event));
            && Advanced(g, n, r, ready.messages, h)
            && h.member[n] == g.member[n].(raft := r, sm := K.Deliver(g.member[n].sm, ready))
  {
    hide Seen, C.Called, TakeReady, K.Deliver;
    var (ready, r) := TakeReady(C.Called(g.member[n].raft, event));
    var m := g.member[n].(raft := r, sm := K.Deliver(g.member[n].sm, ready));
    h := Changed(g, n, m, ready.messages);
    SeenNext(p, g, Begins(event), h);
    SentAll(g, n, m, ready.messages);
  }

  /** A call whose drain does not get to save: nothing goes out. */
  lemma Stalls(p: Story, g: Group, n: NodeId, event: C.Event) returns (h: Group)
    requires Seen(p, g) && n in g.member && C.Actor(event) == n && Possible(g, event)
    requires TakeReady(C.Called(g.member[n].raft, event)).0.persist.Some?
    ensures Seen(p, h)
    ensures var (ready, r) := TakeReady(C.Called(g.member[n].raft, event));
            && Advanced(g, n, r, [], h)
            && h.member[n] == g.member[n].(raft := r, sm := K.Deliver(g.member[n].sm, ready),
                                           waiting := g.member[n].waiting + [ready])
  {
    hide Seen, C.Called, TakeReady, K.Deliver;
    var (ready, r) := TakeReady(C.Called(g.member[n].raft, event));
    var m := g.member[n].(raft := r, sm := K.Deliver(g.member[n].sm, ready), waiting := g.member[n].waiting + [ready]);
    h := Changed(g, n, m, []);
    SeenNext(p, g, Begins(event), h);
    SentAll(g, n, m, []);
  }

  /** A call of an idle member with nothing overlapping it: save if asked to, then send. */
  lemma Serially(p: Story, g: Group, n: NodeId, event: C.Event) returns (h: Group)
    requires Seen(p, g) && n in g.member && C.Actor(event) == n && Possible(g, event) && Idle(g.member[n])
    ensures Seen(p, h)
    ensures var (ready, r) := TakeReady(C.Called(g.member[n].raft, event));
            && Advanced(g, n, r, ready.messages, h) && Idle(h.member[n])
            && (ready.persist.Some? ==> h.member[n].disk == Durable(r))
  {
    hide Seen, C.Called, TakeReady, K.Deliver;
    var (ready, r) := TakeReady(C.Called(g.member[n].raft, event));
    if ready.persist.None? {
      h := Hastily(p, g, n, event);
    } else {
      h := Stalls(p, g, n, event);
      h := Finishes(p, g, h, n, ready);
    }
  }

  /** A call that asked for a save gets to it undisturbed. */
  lemma Finishes(p: Story, g: Group, mid: Group, n: NodeId, ready: Ready) returns (h: Group)
    requires Seen(p, mid) && n in mid.member && n in g.member && Advanced(g, n, mid.member[n].raft, [], mid)
    requires mid.member[n].waiting == [ready] && mid.member[n].writing.None?
    ensures Seen(p, h) && Advanced(g, n, mid.member[n].raft, ready.messages, h) && Idle(h.member[n])
    ensures h.member[n].disk == Durable(mid.member[n].raft)
  {
    hide Seen;
    var m := mid.member[n];
    assert [ready][..0] + [ready][1..] == [];
    var m2 := m.(waiting := [], writing := Some(Write(Durable(m.raft), ready)));
    var g2 := Changed(mid, n, m2, []);
    SeenNext(p, mid, Reads(n, 0), g2);
    SentAll(mid, n, m2, []);
    var m3 := m2.(disk := Durable(m.raft), writing := None);
    h := Changed(g2, n, m3, ready.messages);
    SeenNext(p, g2, Completes(n), h);
    SentAll(g2, n, m3, ready.messages);
  }

  lemma Ticked(p: Story, g: Group, n: NodeId) returns (h: Group)
    requires Seen(p, g) && n in g.member && Idle(g.member[n])
    ensures Seen(p, h)
    ensures var (ready, r) := TakeReady(Tick(g.member[n].raft));
            Advanced(g, n, r, ready.messages, h) && Idle(h.member[n])
  {
    hide Seen;
    h := Serially(p, g, n, C.Ticks(n));
  }

  lemma Received(p: Story, g: Group, from: NodeId, n: NodeId, msg: Message) returns (h: Group)
    requires Seen(p, g) && n in g.member && Idle(g.member[n]) && C.Packet(from, n, msg) in g.net
    ensures Seen(p, h)
    ensures var (ready, r) := TakeReady(Step(g.member[n].raft, from, msg));
            && Advanced(g, n, r, ready.messages, h) && Idle(h.member[n])
            && (ready.persist.Some? ==> h.member[n].disk == Durable(r))
  {
    hide Seen;
    h := Serially(p, g, n, C.Receives(C.Packet(from, n, msg)));
  }

  // ---- the run ----------------------------------------------------------

  ghost predicate Trio(g: Group, a: NodeId, b: NodeId, c: NodeId) {
    a != b && b != c && a != c && g.member.Keys == {a, b, c}
  }

  /** Only `n` may have changed. */
  ghost predicate Apart(g: Group, n: NodeId, h: Group) {
    && h.member.Keys == g.member.Keys && g.net <= h.net
    && (forall m :: m in g.member && m != n ==> h.member[m] == g.member[m])
  }

  /** A follower left alone ticks until its patience is about to end. */
  lemma {:induction false} WaitedOut(p: Story, g: Group, n: NodeId, peers: seq<NodeId>, term: nat, vote: Option<NodeId>)
    returns (h: Group)
    requires Seen(p, g) && n in g.member && Idle(g.member[n])
    requires Plain(g.member[n].raft, n, peers, term, vote, [], Follower)
    ensures Seen(p, h) && Apart(g, n, h) && Idle(h.member[n])
    ensures var s, r := g.member[n].raft, h.member[n].raft;
            Plain(r, n, peers, term, vote, [], Follower) && Due(r) && r.commitIndex == s.commitIndex
    decreases g.member[n].raft.electionTimeout - g.member[n].raft.electionElapsed
  {
    hide Seen, Plain, Tick, TakeReady;
    h := g;
    if !Due(g.member[n].raft) {
      Waits(g.member[n].raft, n, peers, term, vote, []);
      h := Ticked(p, g, n);
      h := WaitedOut(p, h, n, peers, term, vote);
    }
  }

  /** Nothing stands between `x` and the votes of `y`: both have empty logs and are in the same term. */
  lemma Election(p: Story, g: Group, x: NodeId, px: seq<NodeId>, y: NodeId, py: seq<NodeId>, term: nat,
                 vx: Option<NodeId>, vy: Option<NodeId>) returns (h: Group)
    requires Seen(p, g) && x in g.member && y in g.member && x != y && y in px && x in py
    requires Idle(g.member[x]) && Idle(g.member[y])
    requires var s, f := g.member[x].raft, g.member[y].raft;
             && Plain(s, x, px, term, vx, [], Follower) && s.commitIndex == 0
             && Plain(f, y, py, term, vy, [], Follower) && f.commitIndex == 0 && f.leaderId.None?
    ensures Seen(p, h) && h.member.Keys == g.member.Keys && g.net <= h.net
    ensures forall m :: m in g.member && m != x && m != y ==> h.member[m] == g.member[m]
    ensures Idle(h.member[x]) && Idle(h.member[y])
    ensures var s, f := h.member[x].raft, h.member[y].raft;
            && Leads(s, x, px, term + 1, [Entry(term + 1, 1, None)]) && s.commitIndex == 0
            && (forall p :: p in px ==>
                  p in s.nextIndex && s.nextIndex[p] == 1 && p in s.matchIndex && s.matchIndex[p] == 0)
            && Plain(f, y, py, term + 1, Some(x), [], Follower) && f.commitIndex == 0 && h.member[y].disk == Durable(f)
  {
    hide Seen, Plain, Tick, Step, TakeReady;
    var ask := RequestVote(term + 1, x, 0, 0, true);
    var vote := RequestVote(term + 1, x, 0, 0, false);
    var g0 := WaitedOut(p, g, x, px, term, vx);
    AsksFirst(g0.member[x].raft, x, px, term, vx, [], y);
    var g1 := Ticked(p, g0, x);
    EmptyLogOk(g1.member[y].raft, y, py, term, vy, ask);
    PreGrants(g1.member[y].raft, y, py, term, vy, [], x, ask);
    var g2 := Received(p, g1, x, y, ask);
    Campaigns(g2.member[x].raft, x, px, term, vx, [], y);
    var g3 := Received(p, g2, y, x, RequestVoteResp(term, true, true));
    EmptyLogOk(g3.member[y].raft, y, py, term, vy, vote);
    Grants(g3.member[y].raft, y, py, term, vy, [], x, vote);
    var g4 := Received(p, g3, x, y, vote);
    Wins(g4.member[x].raft, x, px, term + 1, [], y);
    assert [] + [Entry(term + 1, 1, None)] == [Entry(term + 1, 1, None)];
    h := Received(p, g4, y, x, RequestVoteResp(term + 1, true, false));
  }

  /** Three members before anything has happened. */
  lemma Beginning(boot: Replicated, cfg: Config, a: NodeId, b: NodeId, c: NodeId) returns (p: Story, g: Group)
    requires a != b && b != c && a != c
    ensures Seen(p, g) && Trio(g, a, b, c) && p.boot == boot && p.cfg == cfg
    ensures Idle(g.member[a]) && Idle(g.member[b]) && Idle(g.member[c])
    ensures Plain(g.member[a].raft, a, [b, c], 0, None, [], Follower) && g.member[a].raft.commitIndex == 0
    ensures Plain(g.member[b].raft, b, [a, c], 0, None, [], Follower) && g.member[b].raft.commitIndex == 0
    ensures Plain(g.member[c].raft, c, [a, b], 0, None, [], Follower) && g.member[c].raft.commitIndex == 0
    ensures g.member[b].raft.leaderId.None? && g.member[c].raft.leaderId.None?
  {
    hide Plain, Seen, StartsFresh;
    var ids := {a, b, c};
    var x := Starting(boot, ids, cfg, a, [b, c]);
    var y := Starting(boot, ids, cfg, b, [a, c]);
    var z := Starting(boot, ids, cfg, c, [a, b]);
    g := Group(map[a := x, b := y, c := z], {});
    assert g.member.Keys == ids;
    p := Story(boot, cfg, Trace([g], []));
    SeenStart(boot, cfg, g);
  }

  lemma Starting(boot: Replicated, ids: set<NodeId>, cfg: Config, me: NodeId, peers: seq<NodeId>) returns (m: Member)
    requires 1 <= |peers| <= 2 && Distinct(peers) && forall p :: p in peers <==> p in ids && p != me
    ensures StartsFresh(boot, ids, me, m) && Idle(m) && m.raft.cfg == cfg
    ensures Plain(m.raft, me, peers, 0, None, [], Follower) && m.raft.commitIndex == 0 && m.raft.leaderId.None?
  {
    hide Plain, New;
    var draws: nat -> nat := n => 0;
    NewIsPlain(me, peers, cfg, draws, 0, None);
    NewFields(me, peers, cfg, draws);
    m := Member(New(me, peers, cfg, draws, FRESH), FRESH, boot, [], None);
  }

  /** The log with which `a` reports success: its no-op, and the command. */
  function Reported(command: Command): seq<Entry> { [Entry(1, 1, None), Entry(1, 2, Some(command))] }

  /** `a` leads term 1 and has committed the command on the strength of an acknowledgement that is not on disk. */
  ghost predicate Committed(g: Group, a: NodeId, b: NodeId, c: NodeId, command: Command) {
    && Trio(g, a, b, c) && Leads(g.member[a].raft, a, [b, c], 1, Reported(command)) && g.member[a].raft.commitIndex == 2
    && OnlyVoted(g.member[b].disk, a) && Idle(g.member[c])
    && g.member[b].raft.peers == [a, c] && g.member[b].raft.id == b
    && Plain(g.member[c].raft, c, [a, b], 0, None, [], Follower) && g.member[c].raft.commitIndex == 0
  }

  /** What `b` had saved: its vote for `a` in term 1, and no entry. */
  predicate OnlyVoted(p: Persisted, a: NodeId) { p == Persisted(1, Some(a), 0, [], 0, 0, None) }

  /** Event `k` of the run is the proposal of `command` to `a`, which leads term 1 with nothing but its no-op. */
  ghost predicate ProposedAt(tr: Trace, k: nat, a: NodeId, command: Command) {
    && k < |tr.events| && k < |tr.states| && tr.events[k] == Begins(C.Proposes(a, command)) && a in tr.states[k].member
    && var s := tr.states[k].member[a].raft;
       s.role == Leader && s.currentTerm == 1 && LastIndex(s) == 1
  }

  /** The proposal, as one event that the run is remembered by, and its save. */
  lemma Proposed(p: Story, g: Group, a: NodeId, peers: seq<NodeId>, command: Command) returns (now: Story, h: Group)
    requires Seen(p, g) && a in g.member && Idle(g.member[a])
    requires Leads(g.member[a].raft, a, peers, 1, [Entry(1, 1, None)])
    requires TakeReady(Propose(g.member[a].raft, command)).0.persist.Some?
    ensures Seen(now, h) && now.boot == p.boot && now.cfg == p.cfg && a in h.member && Idle(h.member[a])
    ensures now.past.events != [] && ProposedAt(now.past, |now.past.events| - 1, a, command)
    ensures var (ready, r) := TakeReady(Propose(g.member[a].raft, command)); Advanced(g, a, r, ready.messages, h)
  {
    hide Seen, TakeReady, Propose, K.Deliver;
    LeaderAtOne(g.member[a].raft, a, peers);
    hide Leads;
    var e := C.Proposes(a, command);
    var (ready, r) := TakeReady(Propose(g.member[a].raft, command));
    var at := SeenHere(p, g);
    var m := g.member[a].(raft := r, sm := K.Deliver(g.member[a].sm, ready), waiting := g.member[a].waiting + [ready]);
    var mid := Changed(g, a, m, []);
    SentAll(g, a, m, []);
    now := Continued(at, g, Begins(e), mid);
    h := Finishes(now, g, mid, a, ready);
  }

  lemma LeaderAtOne(s: State, me: NodeId, peers: seq<NodeId>)
    requires Leads(s, me, peers, 1, [Entry(1, 1, None)])
    ensures s.role == Leader && s.currentTerm == 1 && LastIndex(s) == 1
  {
  }

  /** One more event, after which the run is remembered. */
  lemma Continued(p: Story, g: Group, e: Event, h: Group) returns (now: Story)
    requires SeenBy(p, p.past, g) && Next(p.boot, g, e, h)
    ensures Seen(now, h) && now.boot == p.boot && now.cfg == p.cfg && Extends(p.past, now.past)
    ensures now.past.events != [] && |now.past.states| == |now.past.events| + 1
    ensures var k := |now.past.events| - 1; now.past.events[k] == e && now.past.states[k] == g
  {
    hide Next, Traced;
    TracedShape(p, p.past, g);
    var next := TraceNext(p.boot, p.cfg, p.past, e, h);
    now := Story(p.boot, p.cfg, next);
    assert SeenBy(now, next, h);
  }

  lemma ProposedStays(past: Trace, tr: Trace, k: nat, a: NodeId, command: Command)
    requires ProposedAt(past, k, a, command) && Extends(past, tr)
    ensures ProposedAt(tr, k, a, command)
  {
    assert tr.states[k] == past.states[k] && tr.events[k] == past.events[k];
  }

  lemma FirstPart(boot: Replicated, cfg: Config, a: NodeId, b: NodeId, c: NodeId, command: Command)
    returns (now: Story, g: Group, k: nat)
    requires a != b && b != c && a != c
    ensures SeenBy(now, now.past, g) && Seen(now, g) && now.boot == boot && now.cfg == cfg
    ensures ProposedAt(now.past, k, a, command) && Committed(g, a, b, c, command)
  {
    hide Seen, Plain, Tick, Step, TakeReady, Propose, ProposedAt, SeenBy, Extends, K.Deliver;
    assert b in [b, c] && a in [a, c];
    var p, g0 := Beginning(boot, cfg, a, b, c);
    var g1 := Election(p, g0, a, [b, c], b, [a, c], 0, None, None);
    VoteSaved(g1.member[b], b, [a, c], a);
    Appends(g1.member[a].raft, a, [b, c], 1, [Entry(1, 1, None)], command, b);
    Grows(g1.member[a].raft, a, [b, c], 1, [Entry(1, 1, None)], command);
    assert [Entry(1, 1, None)] + [Entry(1, 2, Some(command))] == Reported(command);
    var q, g2 := Proposed(p, g1, a, [b, c], command);
    k := |q.past.events| - 1;
    var g4 := Acknowledged(q, g2, a, b, [a, c], command);
    CommitsAll(g4.member[a].raft, a, [b, c], 1, Reported(command), b);
    g := Received(q, g4, b, a, AppendEntriesResp(1, true, 2));
    now := SeenHere(q, g);
    ProposedStays(q.past, now.past, k, a, command);
  }

  /** `b` takes the append twice, and acknowledges it while its save is still to come. */
  lemma Acknowledged(p: Story, g: Group, a: NodeId, b: NodeId, peers: seq<NodeId>, command: Command) returns (h: Group)
    requires Seen(p, g) && b in g.member && Idle(g.member[b]) && a in peers
    requires Plain(g.member[b].raft, b, peers, 1, Some(a), [], Follower) && g.member[b].raft.commitIndex == 0
    requires C.Packet(a, b, AppendEntries(1, a, 0, 0, Reported(command), 0)) in g.net
    ensures Seen(p, h) && Apart(g, b, h) && h.member[b].disk == g.member[b].disk
    ensures h.member[b].raft.peers == peers && h.member[b].raft.id == b
    ensures C.Packet(b, a, AppendEntriesResp(1, true, 2)) in h.net
  {
    hide Seen, Plain, Step, TakeReady, K.Deliver;
    var receipt := C.Receives(C.Packet(a, b, AppendEntries(1, a, 0, 0, Reported(command), 0)));
    TakesAll(g.member[b].raft, b, peers, 1, Some(a), Reported(command), a);
    var mid := Stalls(p, g, b, receipt);
    TakesAgain(mid.member[b].raft, b, peers, 1, Some(a), Reported(command), a);
    h := Hastily(p, mid, b, receipt);
    FollowerFields(h.member[b].raft, b, peers, Reported(command), a);
  }

  lemma VoteSaved(m: Member, me: NodeId, peers: seq<NodeId>, a: NodeId)
    requires Plain(m.raft, me, peers, 1, Some(a), [], Follower) && m.raft.commitIndex == 0 && m.disk == Durable(m.raft)
    ensures OnlyVoted(m.disk, a)
  {
  }

  lemma FollowerFields(s: State, me: NodeId, peers: seq<NodeId>, log: seq<Entry>, a: NodeId)
    requires Plain(s, me, peers, 1, Some(a), log, Follower)
    ensures s.peers == peers && s.id == me
  {
  }

  /** `b` crashes and comes back with what it had saved; together with `c` it elects `c`. */
  lemma SecondPart(p: Story, g: Group, a: NodeId, b: NodeId, c: NodeId, command: Command) returns (h: Group)
    requires Seen(p, g) && Committed(g, a, b, c, command)
    ensures Seen(p, h) && c in h.member && Leads(h.member[c].raft, c, [a, b], 2, [Entry(2, 1, None)])
  {
    hide Seen, Plain, Tick, Step, TakeReady;
    assert b in [a, b] && c in [a, c];
    var g0 := Crashed(p, g, a, b, c, command);
    var g1 := WaitedOut(p, g0, c, [a, b], 0, None);
    AsksFirst(g1.member[c].raft, c, [a, b], 0, None, [], b);
    var g2 := Ticked(p, g1, c);
    var ask := RequestVote(1, c, 0, 0, true);
    EmptyLogOk(g2.member[b].raft, b, [a, c], 1, Some(a), ask);
    PreGrants(g2.member[b].raft, b, [a, c], 1, Some(a), [], c, ask);
    var g3 := Received(p, g2, c, b, ask);
    CatchesTerm(g3.member[c].raft, c, [a, b], 0, None, [], PreCandidate, b, 1);
    var g4 := Received(p, g3, b, c, RequestVoteResp(1, true, true));
    h := Election(p, g4, c, [a, b], b, [a, c], 1, None, Some(a));
  }

  lemma Crashed(p: Story, g: Group, a: NodeId, b: NodeId, c: NodeId, command: Command) returns (h: Group)
    requires Seen(p, g) && Committed(g, a, b, c, command)
    ensures Seen(p, h) && Trio(h, a, b, c) && h.member[c] == g.member[c] && Idle(h.member[b])
    ensures Plain(h.member[b].raft, b, [a, c], 1, Some(a), [], Follower)
    ensures h.member[b].raft.commitIndex == 0 && h.member[b].raft.leaderId.None?
  {
    hide Seen, Leads, Plain, New, MayFind;
    var draws: nat -> nat := n => 0;
    var m := g.member[b];
    ComesBack(m, b, [a, c], a, draws);
    h := Changed(g, b, Reborn(p.boot, b, m, m.disk, draws), []);
    SeenNext(p, g, Crashes(b, m.disk, draws), h);
  }

  lemma ComesBack(m: Member, me: NodeId, peers: seq<NodeId>, a: NodeId, draws: nat -> nat)
    requires OnlyVoted(m.disk, a) && me !in peers && 1 <= |peers| <= 2 && Distinct(peers)
    ensures MayFind(m, m.disk)
    ensures var r := New(me, peers, m.raft.cfg, draws, m.disk);
            Plain(r, me, peers, 1, Some(a), [], Follower) && r.commitIndex == 0 && r.leaderId.None?
  {
    NewIsPlain(me, peers, m.raft.cfg, draws, 1, Some(a));
  }

  /**
   * An acknowledged command is lost. Under any timing there is a run, with one crash, in
   * which the command is proposed to `a`, which leads term 1; at some later moment `a`
   * has it at index 2 and reads it as committed, so that its proposal returns true; and
   * at a moment after that `c` leads term 2 with a log that ends before index 2.
   */
  lemma CommittedIsLost(boot: Replicated, cfg: Config, a: NodeId, b: NodeId, c: NodeId, command: Command)
    returns (tr: Trace, k: nat, i: nat)
    requires a != b && b != c && a != c
    ensures Traced(boot, cfg, tr) && ProposedAt(tr, k, a, command) && k < i < |tr.states|
    ensures a in tr.states[i].member && c in tr.states[|tr.states| - 1].member
    ensures var s, f := tr.states[i].member[a].raft, tr.states[|tr.states| - 1].member[c].raft;
            && s.role == Leader && s.currentTerm == 1 && D.Confirms(D.ReadingOf(s, true), 2, 1)
            && L.EntryAt(s, 2) == Some(Entry(1, 2, Some(command)))
            && f.role == Leader && f.currentTerm == 2 && f.baseIndex == 0 && LastIndex(f) == 1
  {
    var p, g, at := FirstPart(boot, cfg, a, b, c, command);
    var h := SecondPart(p, g, a, b, c, command);
    TracedShape(p, p.past, g);
    hide Traced;
    tr :| SeenBy(p, tr, h);
    k, i := at, |p.past.states| - 1;
    ProposedStays(p.past, tr, k, a, command);
    assert tr.states[i] == p.past.states[i] == g;
  }
}
