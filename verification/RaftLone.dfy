/**
 * A group of one, which quorums do not protect: it commits in memory before anything
 * is saved, so what it reads as committed may be lost; what it has saved never is.
 */
module RaftLone {
  import opened Model
  import opened RaftSpec
  import opened RaftOverlap
  import opened RaftDelay
  import opened RaftScenes
  import opened RaftCourse
  import C = RaftCluster
  import D = RaftDriver
  import F = StoreRecovery
  import K = RaftCommit
  import L = RaftLocal
  import O = RaftOverlapSafety

  // ---- what is saved stays ----------------------------------------------

  function Last(p: Persisted): nat { p.baseIndex + |p.log| }

  /** `q` has every entry of `p`, live or folded away. */
  ghost predicate Extends(p: Persisted, q: Persisted) {
    && p.baseIndex <= q.baseIndex && Last(p) <= Last(q)
    && (forall k :: q.baseIndex < k <= Last(p) ==> F.Live(q, k) == F.Live(p, k))
  }

  lemma ExtendsTransitive(p: Persisted, q: Persisted, r: Persisted)
    requires Extends(p, q) && Extends(q, r)
    ensures Extends(p, r)
  {
    hide F.Live;
    forall k | r.baseIndex < k <= Last(p) ensures F.Live(r, k) == F.Live(p, k) {
      assert F.Live(q, k) == F.Live(p, k);
    }
  }

  /** Without peers, a call only appends. */
  lemma CallExtends(s: State, e: C.Event)
    requires s.peers == [] && (e.Ticks? || e.Receives? || e.Proposes?)
    ensures Extends(Durable(s), Durable(C.Called(s, e)))
  {
    if e.Receives? {
      assert !Admissible(s, e.packet.from, e.packet.msg);
    } else {
      match e
      case Ticks(_) => TickIdles(s);
      case Proposes(_, command) => ProposeAppends(s, command);
    }
  }

  lemma ProposeAppends(s: State, command: Command)
    ensures var q := Propose(s, command); q.baseIndex == s.baseIndex && s.log <= q.log
  {
    hide HighestCommittable, SendAppends;
  }

  lemma CompactExtends(s: State, index: nat, data: Replicated)
    requires s.commitIndex <= LastIndex(s)
    ensures Extends(Durable(s), Durable(Compact(s, index, data)))
  {
    hide TermAt;
  }

  /** The disk has everything of `p`, the save under way everything of the disk, the engine everything of both. */
  ghost predicate Keeps(p: Persisted, m: Member) {
    && Extends(p, m.disk) && Extends(m.disk, Durable(m.raft))
    && (m.writing.Some? ==>
          Extends(m.disk, m.writing.value.contents) && Extends(m.writing.value.contents, Durable(m.raft)))
  }

  lemma KeepsNext(boot: Replicated, g: Group, e: Event, h: Group, n: NodeId, p: Persisted)
    requires Next(boot, g, e, h) && Careful(g, e) && n in g.member && g.member[n].raft.peers == []
    requires Keeps(p, g.member[n]) && g.member[n].raft.commitIndex <= LastIndex(g.member[n].raft)
    ensures n in h.member && Keeps(p, h.member[n])
  {
    hide Extends, C.Called, Compact, MayFind, New, K.Deliver, AsksNoSave, Settled;
    var m := g.member[n];
    if Actor(e) == n {
      match e
      case Begins(event) =>
        CallExtends(m.raft, event);
        var q := Durable(C.Called(m.raft, event));
        assert Durable(h.member[n].raft) == q;
        Onward(p, m, q);
      case Reads(_, _) => ExtendsSelf(Durable(m.raft));
      case Completes(_) => ExtendsTransitive(p, m.disk, m.writing.value.contents);
      case Compacts(_, index, data) =>
        CompactExtends(m.raft, index, data);
        var q := Durable(Compact(m.raft, index, data));
        Onward(p, m, q);
        ExtendsTransitive(p, m.disk, q);
        ExtendsSelf(q);
      case Crashes(_, found, draws) =>
        if found != m.disk {
          ExtendsTransitive(p, m.disk, found);
        }
        ExtendsSelf(found);
        RebornDurable(boot, n, m, found, draws);
    }
  }

  lemma RebornDurable(boot: Replicated, n: NodeId, m: Member, found: Persisted, draws: nat -> nat)
    ensures Durable(Reborn(boot, n, m, found, draws).raft) == found
  {
  }

  lemma ExtendsSelf(p: Persisted)
    ensures Extends(p, p)
  {
  }

  lemma Onward(p: Persisted, m: Member, q: Persisted)
    requires Keeps(p, m) && Extends(Durable(m.raft), q)
    ensures Extends(m.disk, q) && (m.writing.Some? ==> Extends(m.writing.value.contents, q))
  {
    hide Extends;
    ExtendsTransitive(m.disk, Durable(m.raft), q);
    if m.writing.Some? {
      ExtendsTransitive(m.writing.value.contents, Durable(m.raft), q);
    }
  }

  /** A lone member has no peers, and its engine is sound. */
  lemma Alone(boot: Replicated, b: seq<Group>, ev: seq<Event>, i: nat, n: NodeId)
    requires CarefulRun(boot, b, ev) && i < |b| && b[0].member.Keys == {n}
    ensures n in b[i].member && b[i].member[n].raft.peers == []
    ensures b[i].member[n].raft.commitIndex <= LastIndex(b[i].member[n].raft)
  {
    hide O.Ordered, O.Backed, O.Single, O.Asked, O.Elected;
    O.RunOk(boot, b, ev, 0, i);
    assert n in b[i].member && O.Ok(b[i], n);
    O.GroupCount(b[i].member[n].raft, b[i].member.Keys);
  }

  lemma {:induction false} KeptFromStart(boot: Replicated, b: seq<Group>, ev: seq<Event>, n: NodeId, i: nat,
                                         p: Persisted, j: nat)
    requires CarefulRun(boot, b, ev) && b[0].member.Keys == {n} && i <= j < |b| && n in b[i].member
    requires Keeps(p, b[i].member[n])
    ensures n in b[j].member && Keeps(p, b[j].member[n])
    decreases j
  {
    if i < j {
      KeptFromStart(boot, b, ev, n, i, p, j - 1);
      Alone(boot, b, ev, j - 1, n);
      assert Next(boot, b[j - 1], ev[j - 1], b[j]) && Careful(b[j - 1], ev[j - 1]);
      hide CarefulRun;
      KeepsNext(boot, b[j - 1], ev[j - 1], b[j], n, p);
    }
  }

  lemma FreshKeeps(boot: Replicated, g: Group, n: NodeId)
    requires Start(boot, g) && n in g.member
    ensures Keeps(FRESH, g.member[n])
  {
    hide Timeout;
    assert StartsFresh(boot, g.member.Keys, n, g.member[n]);
  }

  /**
   * Whatever a lone member has saved, committed or not, it has for good: at every later
   * moment, across any crashes, the entry is live in its engine or under its base.
   */
  lemma SavedIsPermanent(boot: Replicated, b: seq<Group>, ev: seq<Event>, n: NodeId, i: nat, j: nat, k: nat)
    requires CarefulRun(boot, b, ev) && b[0].member.Keys == {n} && i <= j < |b| && n in b[i].member
    requires F.Live(b[i].member[n].disk, k).Some?
    ensures n in b[j].member
    ensures var r := b[j].member[n].raft;
            k <= LastIndex(r) && (r.baseIndex < k ==> L.EntryAt(r, k) == F.Live(b[i].member[n].disk, k))
  {
    hide CarefulRun;
    var p := b[i].member[n].disk;
    FirstKeeps(boot, b, ev, n);
    KeptFromStart(boot, b, ev, n, 0, FRESH, i);
    assert Keeps(p, b[i].member[n]) by { ExtendsSelf(p); }
    KeptFromStart(boot, b, ev, n, i, p, j);
    var m := b[j].member[n];
    ExtendsTransitive(p, m.disk, Durable(m.raft));
    F.LiveIsEntryAt(m.raft);
  }

  lemma FirstKeeps(boot: Replicated, b: seq<Group>, ev: seq<Event>, n: NodeId)
    requires CarefulRun(boot, b, ev) && b[0].member.Keys == {n}
    ensures Keeps(FRESH, b[0].member[n])
  {
    FreshKeeps(boot, b[0], n);
  }

  // ---- what is read may be lost -----------------------------------------

  lemma AddEvent(boot: Replicated, b: seq<Group>, ev: seq<Event>, e: Event, h: Group)
    requires CarefulRun(boot, b, ev) && Next(boot, b[|b| - 1], e, h) && Careful(b[|b| - 1], e)
    ensures CarefulRun(boot, b + [h], ev + [e])
  {
    hide Next, Start, Careful;
    var b', ev' := b + [h], ev + [e];
    forall k | 0 <= k < |ev'| ensures Next(boot, b'[k], ev'[k], b'[k + 1]) && Careful(b'[k], ev'[k]) {
      if k < |ev| {
        assert b'[k] == b[k] && b'[k + 1] == b[k + 1] && ev'[k] == ev[k] && Careful(b[k], ev[k]);
      }
    }
    assert b'[0] == b[0];
  }

  /** A run of a group of one, so far: the member idle and settled. */
  ghost predicate Resting(boot: Replicated, cfg: Config, n: NodeId, b: seq<Group>, ev: seq<Event>) {
    && CarefulRun(boot, b, ev) && |b| == |ev| + 1 && b[0].member.Keys == {n} && b[0].member[n].raft.cfg == cfg
    && (var g := b[|b| - 1];
        n in g.member && g.member[n].waiting == [] && g.member[n].writing.None?
        && g.member[n].disk == Durable(g.member[n].raft))
  }

  /** A tick that asks for no save. */
  lemma TickQuietly(boot: Replicated, cfg: Config, n: NodeId, b: seq<Group>, ev: seq<Event>)
    returns (b': seq<Group>, ev': seq<Event>)
    requires Resting(boot, cfg, n, b, ev)
    requires var (ready, r) := TakeReady(Tick(b[|b| - 1].member[n].raft));
             ready.persist.None? && Durable(r) == Durable(b[|b| - 1].member[n].raft)
    ensures Resting(boot, cfg, n, b', ev')
    ensures b'[|b'| - 1].member[n].raft == TakeReady(Tick(b[|b| - 1].member[n].raft)).1
  {
    hide Tick, TakeReady, CarefulRun, K.Deliver, Durable;
    var g := b[|b| - 1];
    var e := Begins(C.Ticks(n));
    var h := Changed(g, n, Begun(g.member[n], C.Ticks(n)).0, Begun(g.member[n], C.Ticks(n)).1);
    AddEvent(boot, b, ev, e, h);
    b', ev' := b + [h], ev + [e];
  }

  /** The last call may ask for a save, which may be completed. */
  lemma TickSaved(boot: Replicated, cfg: Config, n: NodeId, b: seq<Group>, ev: seq<Event>)
    returns (b': seq<Group>, ev': seq<Event>)
    requires Resting(boot, cfg, n, b, ev) && TakeReady(Tick(b[|b| - 1].member[n].raft)).0.persist.Some?
    ensures Resting(boot, cfg, n, b', ev')
    ensures b'[|b'| - 1].member[n].raft == TakeReady(Tick(b[|b| - 1].member[n].raft)).1
  {
    hide Tick, TakeReady, CarefulRun, K.Deliver, Durable;
    var g := b[|b| - 1];
    var m := Begun(g.member[n], C.Ticks(n)).0;
    var g1 := Changed(g, n, m, []);
    AddEvent(boot, b, ev, Begins(C.Ticks(n)), g1);
    var m2 := m.(waiting := m.waiting[..0] + m.waiting[1..], writing := Some(Write(Durable(m.raft), m.waiting[0])));
    var g2 := Changed(g1, n, m2, []);
    var b1, ev1 := b + [g1], ev + [Begins(C.Ticks(n))];
    AddEvent(boot, b1, ev1, Reads(n, 0), g2);
    var m3 := m2.(disk := Durable(m.raft), writing := None);
    var g3 := Changed(g2, n, m3, m.waiting[0].messages);
    AddEvent(boot, b1 + [g2], ev1 + [Reads(n, 0)], Completes(n), g3);
    b', ev' := b1 + [g2] + [g3], ev1 + [Reads(n, 0)] + [Completes(n)];
  }

  lemma Beginning(boot: Replicated, cfg: Config, n: NodeId) returns (b: seq<Group>)
    ensures Resting(boot, cfg, n, b, [])
    ensures Plain(b[|b| - 1].member[n].raft, n, [], 0, None, [], Follower) && b[|b| - 1].member[n].raft.commitIndex == 0
  {
    hide Plain, Timeout;
    var draws: nat -> nat := k => 0;
    NewIsPlain(n, [], cfg, draws, 0, None);
    NewFields(n, [], cfg, draws);
    var g := Group(map[n := Member(New(n, [], cfg, draws, FRESH), FRESH, boot, [], None)], {});
    assert g.member.Keys == {n};
    assert StartsFresh(boot, g.member.Keys, n, g.member[n]);
    b := [g];
  }

  lemma {:induction false} Waited(boot: Replicated, cfg: Config, n: NodeId, b: seq<Group>, ev: seq<Event>)
    returns (b': seq<Group>, ev': seq<Event>)
    requires Resting(boot, cfg, n, b, ev)
    requires var s := b[|b| - 1].member[n].raft; Plain(s, n, [], 0, None, [], Follower) && s.commitIndex == 0
    ensures Resting(boot, cfg, n, b', ev')
    ensures var s := b'[|b'| - 1].member[n].raft; Plain(s, n, [], 0, None, [], Follower) && s.commitIndex == 0 && Due(s)
    decreases b[|b| - 1].member[n].raft.electionTimeout - b[|b| - 1].member[n].raft.electionElapsed
  {
    hide Resting, Tick, Plain;
    RestingShape(boot, cfg, n, b, ev);
    b', ev' := b, ev;
    var s := b[|b| - 1].member[n].raft;
    if !Due(s) {
      Waits(s, n, [], 0, None, []);
      QuietTick(s, n);
      b', ev' := TickQuietly(boot, cfg, n, b, ev);
      b', ev' := Waited(boot, cfg, n, b', ev');
    }
  }

  lemma RestingShape(boot: Replicated, cfg: Config, n: NodeId, b: seq<Group>, ev: seq<Event>)
    requires Resting(boot, cfg, n, b, ev)
    ensures |b| == |ev| + 1 && n in b[|b| - 1].member && b[|b| - 1].member[n].disk == Durable(b[|b| - 1].member[n].raft)
    ensures CarefulRun(boot, b, ev) && b[0].member.Keys == {n} && b[0].member[n].raft.cfg == cfg
  {
  }

  /** The lone member leads term 1, and has saved so. */
  lemma LeadsFirst(boot: Replicated, cfg: Config, n: NodeId) returns (b: seq<Group>, ev: seq<Event>)
    ensures Resting(boot, cfg, n, b, ev)
    ensures var s := b[|b| - 1].member[n].raft; Leads(s, n, [], 1, [Entry(1, 1, None)]) && s.commitIndex == 0
  {
    hide Plain, Tick, TakeReady, Resting;
    var b0 := Beginning(boot, cfg, n);
    b, ev := Waited(boot, cfg, n, b0, []);
    RestingShape(boot, cfg, n, b, ev);
    ElectsItself(b[|b| - 1].member[n].raft, n, 0, None, []);
    assert [] + [Entry(1, 1, None)] == [Entry(1, 1, None)];
    b, ev := TickSaved(boot, cfg, n, b, ev);
  }

  lemma QuietTick(s: State, n: NodeId)
    requires Plain(s, n, [], 0, None, [], Follower) && !Due(s)
    ensures var (ready, r) := TakeReady(Tick(s)); ready.persist.None? && Durable(r) == Durable(s)
  {
    hide Batch, StartPreElection;
  }

  /**
   * Alone, even a careful member may lose what it reads as committed: there is a run of a
   * group of one in which the member proposes, reads the proposal committed in its term,
   * and crashes before the save that its drain is waiting for; the proposal is gone.
   */
  lemma LoneCommitIsLost(boot: Replicated, cfg: Config, n: NodeId, command: Command)
    returns (b: seq<Group>, ev: seq<Event>, i: nat)
    ensures CarefulRun(boot, b, ev) && 0 < i < |ev| && i + 2 == |b| == |ev| + 1 && b[0].member.Keys == {n}
    ensures b[0].member[n].raft.cfg == cfg && ev[i - 1] == Begins(C.Proposes(n, command)) && n in b[i].member
    ensures n in b[i + 1].member
    ensures var s, r := b[i].member[n].raft, b[i + 1].member[n].raft;
            && s.role == Leader && s.currentTerm == 1 && D.Confirms(D.ReadingOf(s, true), 2, 1)
            && L.EntryAt(s, 2) == Some(Entry(1, 2, Some(command)))
            && r.baseIndex == 0 && LastIndex(r) == 1
  {
    hide Plain, Propose, TakeReady, CarefulRun, New, MayFind, K.Deliver, D.ReadingOf, Resting;
    var b2, ev2 := LeadsFirst(boot, cfg, n);
    RestingShape(boot, cfg, n, b2, ev2);
    var g := b2[|b2| - 1];
    var m := g.member[n];
    CommitsAlone(m.raft, n, 1, [Entry(1, 1, None)], command);
    var call := C.Proposes(n, command);
    var g3 := Changed(g, n, Begun(m, call).0, []);
    AddEvent(boot, b2, ev2, Begins(call), g3);
    var b3, ev3 := b2 + [g3], ev2 + [Begins(call)];
    var draws: nat -> nat := k => 0;
    var m3 := g3.member[n];
    FoundAsIs(m3, m.raft, n);
    var g4 := Changed(g3, n, Reborn(boot, n, m3, m3.disk, draws), []);
    AddEvent(boot, b3, ev3, Crashes(n, m3.disk, draws), g4);
    b, ev, i := b3 + [g4], ev3 + [Crashes(n, m3.disk, draws)], |b3| - 1;
    ReadsBack(m3.raft, n, command);
    RebornDurable(boot, n, m3, m3.disk, draws);
  }

  lemma FoundAsIs(m: Member, s: State, n: NodeId)
    requires m.disk == Durable(s) && Leads(s, n, [], 1, [Entry(1, 1, None)]) && s.commitIndex == 0
    ensures MayFind(m, m.disk) && m.disk.baseIndex == 0 && |m.disk.log| == 1
  {
  }

  lemma ReadsBack(s: State, n: NodeId, command: Command)
    requires Leads(s, n, [], 1, [Entry(1, 1, None)] + [Entry(1, 2, Some(command))]) && s.commitIndex == 2
    ensures s.role == Leader && s.currentTerm == 1 && D.Confirms(D.ReadingOf(s, true), 2, 1)
    ensures L.EntryAt(s, 2) == Some(Entry(1, 2, Some(command)))
  {
  }
}
