/**
 * Overlapping drains done carefully are serialised drains delayed. If a drain that
 * asks for no save sends only when the disk holds everything durable, every run of
 * the overlapping group is a run of the serialised group in which each member's
 * calls are put off until the save that covers them has been read and completed:
 * nothing they do can be seen earlier.
 */
module RaftDelay {
  import opened Model
  import opened RaftSpec
  import opened RaftOverlap
  import opened RaftFork
  import C = RaftCluster
  import K = RaftCommit
  import L = RaftLocal

  // ---- careful runs -----------------------------------------------------

  /** Whatever a crash may bring back now is exactly what is durable in the engine. */
  ghost predicate Settled(m: Member) {
    m.disk == Durable(m.raft) && (m.writing.Some? ==> m.writing.value.contents == m.disk)
  }

  ghost predicate AsksNoSave(m: Member, event: C.Event) {
    TakeReady(C.Called(m.raft, event)).0.persist.None?
  }

  /**
   * The guard that is missing: a call that asks for no save is made only when the member
   * is settled. Compaction folds what has been applied, and a crash finds what was last
   * saved or what was just being saved.
   */
  ghost predicate Careful(g: Group, e: Event) {
    Actor(e) in g.member ==>
      var m := g.member[Actor(e)];
      match e
      case Begins(event) => AsksNoSave(m, event) ==> Settled(m)
      case Compacts(_, index, data) => index == m.raft.lastApplied && data == m.sm
      case Crashes(_, found, _) => found == m.disk || (m.writing.Some? && found == m.writing.value.contents)
      case Reads(_, _) => true
      case Completes(_) => true
  }

  ghost predicate CarefulRun(boot: Replicated, b: seq<Group>, ev: seq<Event>) {
    Run(boot, b, ev) && forall i :: 0 <= i < |ev| ==> Careful(b[i], ev[i])
  }

  // ---- putting calls off ------------------------------------------------

  /** Everything `calls` send. */
  ghost function Sent(n: NodeId, m: C.Member, calls: seq<C.Event>): set<C.Packet> {
    if calls == [] then {}
    else
      var k := |calls| - 1;
      Sent(n, m, calls[..k]) + C.Packets(n, TakeReady(C.Called(Play(m, calls[..k]).raft, calls[k])).0.messages)
  }

  lemma {:induction false} PlayConcat(m: C.Member, a: seq<C.Event>, b: seq<C.Event>)
    ensures Play(m, a + b) == Play(Play(m, a), b)
  {
    hide PlayOne;
    if b == [] {
      assert a + b == a;
    } else {
      PlayConcat(m, a, b[..|b| - 1]);
      assert (a + b)[..|a + b| - 1] == a + b[..|b| - 1];
    }
  }

  lemma {:induction false} SentConcat(n: NodeId, m: C.Member, a: seq<C.Event>, b: seq<C.Event>)
    ensures Sent(n, m, a + b) == Sent(n, m, a) + Sent(n, Play(m, a), b)
  {
    hide PlayOne, TakeReady;
    if b == [] {
      assert a + b == a;
    } else {
      SentConcat(n, m, a, b[..|b| - 1]);
      PlayConcat(m, a, b[..|b| - 1]);
      assert (a + b)[..|a + b| - 1] == a + b[..|b| - 1];
    }
  }

  /** A member that had saved everything has again, and remains who it is. */
  ghost predicate Kept(x: C.Member, y: C.Member) {
    && y.disk == Durable(y.raft) && L.Valid(y.raft)
    && y.raft.id == x.raft.id && y.raft.peers == x.raft.peers && y.raft.cfg == x.raft.cfg
  }

  lemma KeptOne(x: C.Member, y: C.Member, e: C.Event)
    requires Kept(x, y)
    ensures Kept(x, PlayOne(y, e))
  {
    hide C.Called, L.Valid;
    C.SavedOk(y, e);
    C.CalledSound(y.raft, e);
    SoundKeeps(y.raft, C.Called(y.raft, e));
  }

  lemma SoundKeeps(s: State, q: State)
    requires L.Valid(s) && L.Sound(s, q)
    ensures q.id == s.id && q.peers == s.peers && q.cfg == s.cfg && L.Valid(q)
    ensures !q.dirty ==> Durable(q) == Durable(s)
  {
    hide L.ValidPersisted;
  }

  lemma {:induction false} PlayKeeps(x: C.Member, calls: seq<C.Event>)
    requires Kept(x, x)
    ensures Kept(x, Play(x, calls))
  {
    hide Kept, PlayOne;
    if calls != [] {
      PlayKeeps(x, calls[..|calls| - 1]);
      KeptOne(x, Play(x, calls[..|calls| - 1]), calls[|calls| - 1]);
    }
  }

  // ---- one member -------------------------------------------------------

  /** Calls not yet covered by the disk: those the save under way has read, and those after it. */
  datatype Pending = Pending(read: seq<C.Event>, unread: seq<C.Event>)

  ghost predicate Callable(net: set<C.Packet>, n: NodeId, calls: seq<C.Event>) {
    forall e :: e in calls ==> IsCall(n, e) && (e.Receives? ==> e.packet in net)
  }

  /** What is handed out and not sent is among what has been sent, or will be once the calls are made. */
  ghost predicate HandedOut(n: NodeId, m: Member, x: C.Member, net: set<C.Packet>, p: Pending) {
    && (m.writing.Some? ==> C.Packets(n, m.writing.value.ready.messages) <= net + Sent(n, x, p.read))
    && (forall k :: 0 <= k < |m.waiting| ==>
          C.Packets(n, m.waiting[k].messages) <= net + Sent(n, x, p.read + p.unread))
  }

  /** `m` is ahead of `x` by exactly the pending calls, and the save under way by those it has read. */
  ghost predicate Ahead(m: Member, x: C.Member, p: Pending) {
    && Kept(x, x) && m.disk == x.disk
    && m.raft == Play(x, p.read + p.unread).raft && m.sm == Play(x, p.read + p.unread).sm
    && (if m.writing.None? then p.read == [] else m.writing.value.contents == Durable(Play(x, p.read).raft))
    && (m.waiting == [] ==> p.unread == [])
  }

  ghost predicate Delayed(n: NodeId, m: Member, x: C.Member, net: set<C.Packet>, wide: set<C.Packet>, p: Pending) {
    Ahead(m, x, p) && HandedOut(n, m, x, wide, p) && Callable(net, n, p.read + p.unread)
  }

  lemma DelayedWidens(n: NodeId, m: Member, x: C.Member, net: set<C.Packet>, wide: set<C.Packet>, p: Pending,
                      net': set<C.Packet>, wide': set<C.Packet>)
    requires Delayed(n, m, x, net, wide, p) && net <= net' && wide <= wide'
    ensures Delayed(n, m, x, net', wide', p)
  {
    hide Ahead;
  }

  /** A call that asks for a save is put off. */
  lemma PutOff(n: NodeId, m: Member, x: C.Member, net: set<C.Packet>, wide: set<C.Packet>, p: Pending, e: C.Event)
    requires Delayed(n, m, x, net, wide, p) && IsCall(n, e) && (e.Receives? ==> e.packet in net) && !AsksNoSave(m, e)
    ensures Delayed(n, Begun(m, e).0, x, net, wide, Pending(p.read, p.unread + [e])) && Begun(m, e).1 == []
  {
    hide Kept, Begun, PlayOne, Play, Sent, AsksNoSave, C.Packets, TakeReady;
    var all := p.read + p.unread;
    assert p.read + (p.unread + [e]) == all + [e];
    PlayPush(n, x, all, e);
    BegunPlays(m, Play(x, all), e);
    WaitingMore(n, m, x, wide, p, e);
  }

  lemma WaitingMore(n: NodeId, m: Member, x: C.Member, wide: set<C.Packet>, p: Pending, e: C.Event)
    requires HandedOut(n, m, x, wide, p) && m.raft == Play(x, p.read + p.unread).raft && !AsksNoSave(m, e)
    ensures HandedOut(n, Begun(m, e).0, x, wide, Pending(p.read, p.unread + [e]))
  {
    hide Begun, PlayOne, Play, Sent, AsksNoSave, C.Packets, TakeReady;
    var all := p.read + p.unread;
    assert p.read + (p.unread + [e]) == all + [e];
    PlayPush(n, x, all, e);
    BegunWaits(m, e);
  }

  lemma PlayPush(n: NodeId, x: C.Member, all: seq<C.Event>, e: C.Event)
    ensures Play(x, all + [e]) == PlayOne(Play(x, all), e)
    ensures Sent(n, x, all + [e])
         == Sent(n, x, all) + C.Packets(n, TakeReady(C.Called(Play(x, all).raft, e)).0.messages)
  {
    hide PlayOne, TakeReady, C.Packets;
    assert (all + [e])[..|all|] == all;
  }

  /** A call does to the overlapping member what it does to the serialised one. */
  lemma BegunPlays(m: Member, y: C.Member, e: C.Event)
    requires y.raft == m.raft && y.sm == m.sm
    ensures var z, d := PlayOne(y, e), Begun(m, e).0;
            d.raft == z.raft && d.sm == z.sm && d.disk == m.disk && d.writing == m.writing
    ensures !AsksNoSave(m, e) ==> Begun(m, e).1 == [] && Begun(m, e).0.waiting != []
  {
    hide C.Called, K.Deliver;
  }

  lemma BegunWaits(m: Member, e: C.Event)
    ensures var ready, d := TakeReady(C.Called(m.raft, e)).0, Begun(m, e);
            && d.0.writing == m.writing
            && (AsksNoSave(m, e) ==> d.0.waiting == m.waiting && d.1 == ready.messages)
            && (!AsksNoSave(m, e) ==> d.0.waiting == m.waiting + [ready])
  {
    hide C.Called, K.Deliver;
  }

  /** The calls before the first of `m`'s are made: the member catches up with the calls `done`. */
  lemma CaughtUp(n: NodeId, m: Member, x: C.Member, net: set<C.Packet>, wide: set<C.Packet>, p: Pending)
    requires Delayed(n, m, x, net, wide, p)
    ensures var all := p.read + p.unread;
            var y := Play(x, all);
            && Kept(x, y) && y.raft == m.raft && y.sm == m.sm
            && (m.writing.Some? ==> C.Packets(n, m.writing.value.ready.messages) <= wide + Sent(n, x, all))
            && (forall k :: 0 <= k < |m.waiting| ==> C.Packets(n, m.waiting[k].messages) <= wide + Sent(n, x, all))
  {
    hide Kept, C.Packets;
    PlayKeeps(x, p.read + p.unread);
    SentConcat(n, x, p.read, p.unread);
  }

  /** A call that asks for no save, made when everything is on disk: all that was put off is made first. */
  lemma AtOnce(n: NodeId, m: Member, x: C.Member, net: set<C.Packet>, wide: set<C.Packet>, p: Pending, e: C.Event)
    requires Delayed(n, m, x, net, wide, p) && AsksNoSave(m, e) && Settled(m)
    ensures var calls := p.read + p.unread + [e];
            var z, wide' := Play(x, calls), wide + Sent(n, x, calls);
            && Delayed(n, Begun(m, e).0, z, net, wide', Pending([], []))
            && C.Packets(n, Begun(m, e).1) <= wide'
  {
    hide Kept, Begun, PlayOne, Play, Sent, AsksNoSave, C.Packets, TakeReady;
    var all := p.read + p.unread;
    var y := Play(x, all);
    CaughtUp(n, m, x, net, wide, p);
    PlayPush(n, x, all, e);
    BegunPlays(m, y, e);
    BegunWaits(m, e);
    assert TakeReady(C.Called(y.raft, e)).0.persist.None? by { NoSaveSame(m, y, e); }
    SettledOne(x, y, e);
    KeptSelf(x, y);
    NonePending(n, PlayOne(y, e));
  }

  lemma NoSaveSame(m: Member, y: C.Member, e: C.Event)
    requires AsksNoSave(m, e) && y.raft == m.raft
    ensures TakeReady(C.Called(y.raft, e)).0.persist.None?
  {
    hide C.Called, TakeReady;
  }

  lemma NonePending(n: NodeId, x: C.Member)
    ensures var none := Pending([], []);
            none.read + none.unread == [] && Play(x, none.read + none.unread) == x && Play(x, none.read) == x
            && Sent(n, x, none.read) == {} && Sent(n, x, none.read + none.unread) == {}
  {
    var none: seq<C.Event> := [];
    assert none + none == none;
  }

  lemma SettledOne(x: C.Member, y: C.Member, e: C.Event)
    requires Kept(x, y) && TakeReady(C.Called(y.raft, e)).0.persist.None?
    ensures var z := PlayOne(y, e); Kept(z, z) && z.disk == y.disk && z.disk == Durable(z.raft)
  {
    hide C.Called, L.Valid;
    KeptOne(x, y, e);
  }

  /** A save reads the engine: it covers every call made so far. */
  lemma ReadNow(n: NodeId, m: Member, x: C.Member, net: set<C.Packet>, wide: set<C.Packet>, p: Pending, k: nat)
    requires Delayed(n, m, x, net, wide, p) && m.writing.None? && k < |m.waiting|
    ensures Delayed(n, m.(waiting := m.waiting[..k] + m.waiting[k + 1..],
                          writing := Some(Write(Durable(m.raft), m.waiting[k]))), x, net, wide, Pending(p.unread, []))
  {
    hide Kept, C.Packets, Play, Sent;
    assert p.read + p.unread == p.unread == p.unread + [];
    var rest := m.waiting[..k] + m.waiting[k + 1..];
    forall j | 0 <= j < |rest| ensures C.Packets(n, rest[j].messages) <= wide + Sent(n, x, p.unread + []) {
      assert rest[j] == m.waiting[if j < k then j else j + 1];
    }
  }

  /** The save completes: the calls it has read are made. */
  lemma CompleteNow(n: NodeId, m: Member, x: C.Member, net: set<C.Packet>, wide: set<C.Packet>, p: Pending)
    requires Delayed(n, m, x, net, wide, p) && m.writing.Some?
    ensures var y, wide' := Play(x, p.read), wide + Sent(n, x, p.read);
            && Delayed(n, m.(disk := m.writing.value.contents, writing := None), y, net, wide', Pending([], p.unread))
            && C.Packets(n, m.writing.value.ready.messages) <= wide'
  {
    hide Kept, C.Packets, HandedOut, Sent, Play;
    CompleteAhead(m, x, p);
    CompleteHands(n, m, x, wide, p);
    assert [] + p.unread == p.unread;
    assert forall e :: e in p.unread ==> e in p.read + p.unread;
  }

  lemma CompleteAhead(m: Member, x: C.Member, p: Pending)
    requires Ahead(m, x, p) && m.writing.Some?
    ensures Ahead(m.(disk := m.writing.value.contents, writing := None), Play(x, p.read), Pending([], p.unread))
  {
    hide Kept, Play;
    PlayKeeps(x, p.read);
    KeptSelf(x, Play(x, p.read));
    PlayConcat(x, p.read, p.unread);
    assert [] + p.unread == p.unread;
  }

  lemma CompleteHands(n: NodeId, m: Member, x: C.Member, wide: set<C.Packet>, p: Pending)
    requires HandedOut(n, m, x, wide, p) && m.writing.Some?
    ensures var y, wide' := Play(x, p.read), wide + Sent(n, x, p.read);
            && HandedOut(n, m.(disk := m.writing.value.contents, writing := None), y, wide', Pending([], p.unread))
            && C.Packets(n, m.writing.value.ready.messages) <= wide'
  {
    hide Play, C.Packets, Sent;
    SentConcat(n, x, p.read, p.unread);
    assert [] + p.unread == p.unread;
  }

  lemma KeptSelf(x: C.Member, y: C.Member)
    requires Kept(x, y)
    ensures Kept(y, y) && y.disk == Durable(y.raft)
  {
  }

  /** A compaction, which saves: everything put off is made first. */
  lemma CompactNow(n: NodeId, m: Member, x: C.Member, net: set<C.Packet>, wide: set<C.Packet>, p: Pending)
    requires Delayed(n, m, x, net, wide, p) && m.writing.None?
    ensures var calls := p.read + p.unread;
            var r := Compact(m.raft, m.raft.lastApplied, m.sm);
            Delayed(n, m.(raft := r, disk := Durable(r)), C.Compacted(Play(x, calls)), net, wide + Sent(n, x, calls),
                    Pending([], []))
  {
    hide C.Packets, Compact, Play, Sent, Kept;
    var y := Play(x, p.read + p.unread);
    CaughtUp(n, m, x, net, wide, p);
    KeptSelf(x, y);
    CompactKept(x, y);
    NonePending(n, C.Compacted(y));
  }

  lemma CompactKept(x: C.Member, y: C.Member)
    requires Kept(x, y)
    ensures Kept(C.Compacted(y), C.Compacted(y))
  {
    hide L.Valid, Compact;
    C.CompactValid(y.raft, y.raft.lastApplied, y.sm);
  }

  /** A crash finds the disk: what was put off is forgotten. */
  lemma CrashNow(boot: Replicated, n: NodeId, m: Member, x: C.Member, net: set<C.Packet>, wide: set<C.Packet>,
                 p: Pending, draws: nat -> nat)
    requires Delayed(n, m, x, net, wide, p) && x.raft.id == n
    ensures Delayed(n, Reborn(boot, n, m, m.disk, draws), C.Restarted(boot, x, draws), net, wide, Pending([], []))
  {
    PlayKeeps(x, p.read + p.unread);
    RestartKept(boot, x, draws);
    var none: seq<C.Event> := [];
    assert none + none == none;
    hide New, Kept;
  }

  lemma RestartKept(boot: Replicated, x: C.Member, draws: nat -> nat)
    requires Kept(x, x)
    ensures var y := C.Restarted(boot, x, draws); Kept(y, y) && y.disk == x.disk
  {
    hide Timeout, L.ValidPersisted;
  }

  // ---- the whole group --------------------------------------------------

  /** The overlapping group `g` is the serialised group `c` with the calls `ps` still to come. */
  ghost predicate Shadows(g: Group, c: C.Cluster, ps: map<NodeId, Pending>) {
    && g.member.Keys == c.member.Keys == ps.Keys && g.net <= c.net
    && (forall n :: n in g.member ==>
          c.member[n].raft.id == n && Delayed(n, g.member[n], c.member[n], g.net, c.net, ps[n]))
  }

  /** Member `n` has made `calls`, with their effects saved, applied and sent. */
  ghost function Flushed(c: C.Cluster, n: NodeId, calls: seq<C.Event>): C.Cluster
    requires n in c.member
  {
    C.Cluster(c.member[n := Play(c.member[n], calls)], c.net + Sent(n, c.member[n], calls))
  }

  ghost function Last(cb: seq<C.Cluster>): C.Cluster
    requires cb != []
  {
    cb[|cb| - 1]
  }

  lemma AddEvent(boot: Replicated, cb: seq<C.Cluster>, cev: seq<C.Event>, e: C.Event, d: C.Cluster)
    requires C.Run(boot, cb, cev) && C.Next(boot, Last(cb), e, d)
    ensures C.Run(boot, cb + [d], cev + [e]) && Last(cb + [d]) == d
  {
    hide C.Next, C.Start;
    var b, ev := cb + [d], cev + [e];
    forall i | 0 <= i < |ev| ensures C.Next(boot, b[i], ev[i], b[i + 1]) {
      if i < |cev| {
        assert b[i] == cb[i] && b[i + 1] == cb[i + 1] && ev[i] == cev[i];
      }
    }
    assert b[0] == cb[0];
  }

  lemma FlushOne(boot: Replicated, c: C.Cluster, n: NodeId, calls: seq<C.Event>)
    requires n in c.member && calls != [] && IsCall(n, calls[|calls| - 1])
    requires calls[|calls| - 1].Receives? ==> calls[|calls| - 1].packet in c.net
    ensures C.Next(boot, Flushed(c, n, calls[..|calls| - 1]), calls[|calls| - 1], Flushed(c, n, calls))
  {
    hide C.Called, K.Deliver, C.Packets;
    var k := |calls| - 1;
    var d := Flushed(c, n, calls[..k]);
    assert C.Drain(d, n, C.Called(d.member[n].raft, calls[k])).member == Flushed(c, n, calls).member;
  }

  /** The put-off calls of a member are made at the end of a run of the serialised group. */
  lemma {:induction false} Flush(boot: Replicated, cb: seq<C.Cluster>, cev: seq<C.Event>, n: NodeId,
                                 calls: seq<C.Event>)
    returns (cb': seq<C.Cluster>, cev': seq<C.Event>)
    requires C.Run(boot, cb, cev) && cb != [] && n in Last(cb).member && Callable(Last(cb).net, n, calls)
    ensures C.Run(boot, cb', cev') && cb' != [] && cb <= cb' && Last(cb') == Flushed(Last(cb), n, calls)
    decreases |calls|
  {
    hide C.Run, C.Next, Play, Sent;
    if calls == [] {
      cb', cev' := cb, cev;
      NothingFlushed(Last(cb), n);
    } else {
      var k := |calls| - 1;
      cb', cev' := Flush(boot, cb, cev, n, calls[..k]);
      FlushOne(boot, Last(cb), n, calls);
      AddEvent(boot, cb', cev', calls[k], Flushed(Last(cb), n, calls));
      cb', cev' := cb' + [Flushed(Last(cb), n, calls)], cev' + [calls[k]];
    }
  }

  lemma NothingFlushed(c: C.Cluster, n: NodeId)
    requires n in c.member
    ensures Flushed(c, n, []) == c
  {
  }

  // ---- every event ------------------------------------------------------

  /** Only `n` has moved, in both groups. */
  lemma Regrouped(g: Group, h: Group, c: C.Cluster, d: C.Cluster, n: NodeId, ps: map<NodeId, Pending>, p: Pending)
    requires Shadows(g, c, ps) && n in g.member && h.member.Keys == g.member.Keys && d.member.Keys == c.member.Keys
    requires forall k :: k in g.member && k != n ==> h.member[k] == g.member[k] && d.member[k] == c.member[k]
    requires g.net <= h.net <= d.net && c.net <= d.net && d.member[n].raft.id == n
    requires Delayed(n, h.member[n], d.member[n], h.net, d.net, p)
    ensures Shadows(h, d, ps[n := p])
  {
    hide Delayed;
    forall k | k in h.member
      ensures d.member[k].raft.id == k && Delayed(k, h.member[k], d.member[k], h.net, d.net, ps[n := p][k])
    {
      if k != n {
        DelayedWidens(k, g.member[k], c.member[k], g.net, c.net, ps[k], h.net, d.net);
      }
    }
  }

  /** Calls that were possible are possible at the end of the run. */
  lemma CanFlush(g: Group, c: C.Cluster, ps: map<NodeId, Pending>, n: NodeId)
    requires Shadows(g, c, ps) && n in g.member
    ensures Callable(c.net, n, ps[n].read + ps[n].unread) && Callable(c.net, n, ps[n].read)
    ensures c.member[n].raft.id == n && Kept(c.member[n], c.member[n])
    ensures Delayed(n, g.member[n], c.member[n], g.net, c.net, ps[n])
  {
    hide HandedOut, Kept;
    assert forall e :: e in ps[n].read ==> e in ps[n].read + ps[n].unread;
  }

  lemma ShadowsBegins(boot: Replicated, g: Group, event: C.Event, h: Group, cb: seq<C.Cluster>, cev: seq<C.Event>,
                      ps: map<NodeId, Pending>)
    returns (cb': seq<C.Cluster>, cev': seq<C.Event>, ps': map<NodeId, Pending>)
    requires C.Run(boot, cb, cev) && cb != [] && Shadows(g, Last(cb), ps)
    requires Next(boot, g, Begins(event), h) && Careful(g, Begins(event))
    ensures C.Run(boot, cb', cev') && cb' != [] && cb <= cb' && Shadows(h, Last(cb'), ps')
  {
    hide C.Run, Begun, AsksNoSave, Delayed, Settled, Kept, Callable, Play, Sent;
    var n, c := C.Actor(event), Last(cb);
    var m, x, p := g.member[n], c.member[n], ps[n];
    CanFlush(g, c, ps, n);
    if AsksNoSave(m, event) {
      var calls := p.read + p.unread + [event];
      CallableMore(g.net, c.net, n, p.read + p.unread, event);
      cb', cev' := Flush(boot, cb, cev, n, calls);
      AtOnce(n, m, x, g.net, c.net, p, event);
      PlayedId(x, calls);
      ps' := ps[n := Pending([], [])];
      DelayedWidens(n, h.member[n], Play(x, calls), g.net, Last(cb').net, Pending([], []), h.net, Last(cb').net);
      Regrouped(g, h, c, Last(cb'), n, ps, Pending([], []));
    } else {
      PutOff(n, m, x, g.net, c.net, p, event);
      cb', cev' := cb, cev;
      ps' := ps[n := Pending(p.read, p.unread + [event])];
      assert h.net == g.net;
      Regrouped(g, h, c, c, n, ps, Pending(p.read, p.unread + [event]));
    }
  }

  lemma CallableMore(net: set<C.Packet>, wide: set<C.Packet>, n: NodeId, calls: seq<C.Event>, e: C.Event)
    requires Callable(wide, n, calls) && net <= wide && IsCall(n, e) && (e.Receives? ==> e.packet in net)
    ensures Callable(wide, n, calls + [e])
  {
  }

  lemma PlayedId(x: C.Member, calls: seq<C.Event>)
    requires Kept(x, x)
    ensures Play(x, calls).raft.id == x.raft.id
  {
    PlayKeeps(x, calls);
  }

  lemma ShadowsReads(boot: Replicated, g: Group, n: NodeId, k: nat, h: Group, c: C.Cluster, ps: map<NodeId, Pending>)
    returns (ps': map<NodeId, Pending>)
    requires Shadows(g, c, ps) && Next(boot, g, Reads(n, k), h)
    ensures Shadows(h, c, ps')
  {
    hide Delayed, Kept, Callable, Play, Sent;
    CanFlush(g, c, ps, n);
    ReadNow(n, g.member[n], c.member[n], g.net, c.net, ps[n], k);
    assert h.net == g.net;
    ps' := ps[n := Pending(ps[n].unread, [])];
    Regrouped(g, h, c, c, n, ps, Pending(ps[n].unread, []));
  }

  lemma ShadowsCompletes(boot: Replicated, g: Group, n: NodeId, h: Group, cb: seq<C.Cluster>, cev: seq<C.Event>,
                         ps: map<NodeId, Pending>)
    returns (cb': seq<C.Cluster>, cev': seq<C.Event>, ps': map<NodeId, Pending>)
    requires C.Run(boot, cb, cev) && cb != [] && Shadows(g, Last(cb), ps) && Next(boot, g, Completes(n), h)
    ensures C.Run(boot, cb', cev') && cb' != [] && cb <= cb' && Shadows(h, Last(cb'), ps')
  {
    hide C.Run, Delayed, Kept, Callable, Play, Sent;
    var c := Last(cb);
    var m, x, p := g.member[n], c.member[n], ps[n];
    CanFlush(g, c, ps, n);
    cb', cev' := Flush(boot, cb, cev, n, p.read);
    CompleteNow(n, m, x, g.net, c.net, p);
    PlayedId(x, p.read);
    ps' := ps[n := Pending([], p.unread)];
    DelayedWidens(n, h.member[n], Play(x, p.read), g.net, Last(cb').net, Pending([], p.unread), h.net, Last(cb').net);
    Regrouped(g, h, c, Last(cb'), n, ps, Pending([], p.unread));
  }

  lemma ShadowsCompacts(boot: Replicated, g: Group, n: NodeId, index: nat, data: Replicated, h: Group,
                        cb: seq<C.Cluster>, cev: seq<C.Event>, ps: map<NodeId, Pending>)
    returns (cb': seq<C.Cluster>, cev': seq<C.Event>, ps': map<NodeId, Pending>)
    requires C.Run(boot, cb, cev) && cb != [] && Shadows(g, Last(cb), ps)
    requires Next(boot, g, Compacts(n, index, data), h) && Careful(g, Compacts(n, index, data))
    ensures C.Run(boot, cb', cev') && cb' != [] && cb <= cb' && Shadows(h, Last(cb'), ps')
  {
    hide C.Run, Delayed, Kept, Callable, Play, Sent, Compact;
    var c := Last(cb);
    var m, x, p := g.member[n], c.member[n], ps[n];
    var calls := p.read + p.unread;
    CanFlush(g, c, ps, n);
    cb', cev' := Flush(boot, cb, cev, n, calls);
    CompactNow(n, m, x, g.net, c.net, p);
    PlayedId(x, calls);
    CompactedId(Play(x, calls));
    var mid := Last(cb');
    var d := mid.(member := mid.member[n := C.Compacted(mid.member[n])]);
    AddEvent(boot, cb', cev', C.Compacts(n), d);
    cb', cev' := cb' + [d], cev' + [C.Compacts(n)];
    ps' := ps[n := Pending([], [])];
    assert h.net == g.net;
    Regrouped(g, h, c, d, n, ps, Pending([], []));
  }

  lemma CompactedId(x: C.Member)
    ensures C.Compacted(x).raft.id == x.raft.id
  {
  }

  /** A restart of the serialised member from its disk. */
  lemma ShadowsRestart(boot: Replicated, g: Group, n: NodeId, draws: nat -> nat, h: Group, c: C.Cluster,
                       mid: C.Cluster, ps: map<NodeId, Pending>, m: Member, p: Pending)
    returns (d: C.Cluster)
    requires Shadows(g, c, ps) && n in g.member && mid.member.Keys == c.member.Keys && c.net <= mid.net
    requires forall k :: k in c.member && k != n ==> mid.member[k] == c.member[k]
    requires Delayed(n, m, mid.member[n], g.net, mid.net, p) && mid.member[n].raft.id == n
    requires h == Changed(g, n, Reborn(boot, n, m, m.disk, draws), [])
    ensures C.Next(boot, mid, C.Restarts(n, draws), d) && Shadows(h, d, ps[n := Pending([], [])])
  {
    hide Delayed, Reborn;
    CrashNow(boot, n, m, mid.member[n], g.net, mid.net, p, draws);
    RestartedId(boot, mid.member[n], draws);
    hide C.Restarted;
    d := mid.(member := mid.member[n := C.Restarted(boot, mid.member[n], draws)]);
    assert h.net == g.net;
    Regrouped(g, h, c, d, n, ps, Pending([], []));
  }

  lemma RestartedId(boot: Replicated, x: C.Member, draws: nat -> nat)
    ensures C.Restarted(boot, x, draws).raft.id == x.raft.id
  {
  }

  lemma ShadowsCrashes(boot: Replicated, g: Group, n: NodeId, found: Persisted, draws: nat -> nat, h: Group,
                       cb: seq<C.Cluster>, cev: seq<C.Event>, ps: map<NodeId, Pending>)
    returns (cb': seq<C.Cluster>, cev': seq<C.Event>, ps': map<NodeId, Pending>)
    requires C.Run(boot, cb, cev) && cb != [] && Shadows(g, Last(cb), ps)
    requires Next(boot, g, Crashes(n, found, draws), h) && Careful(g, Crashes(n, found, draws))
    ensures C.Run(boot, cb', cev') && cb' != [] && cb <= cb' && Shadows(h, Last(cb'), ps')
  {
    hide C.Run, Delayed, Kept, Callable, Play, Sent, MayFind, C.Next;
    var c := Last(cb);
    var m, x, p := g.member[n], c.member[n], ps[n];
    CanFlush(g, c, ps, n);
    ps' := ps[n := Pending([], [])];
    if found == m.disk {
      var d := ShadowsRestart(boot, g, n, draws, h, c, c, ps, m, p);
      AddEvent(boot, cb, cev, C.Restarts(n, draws), d);
      cb', cev' := cb + [d], cev + [C.Restarts(n, draws)];
    } else {
      cb', cev' := Flush(boot, cb, cev, n, p.read);
      CompleteNow(n, m, x, g.net, c.net, p);
      PlayedId(x, p.read);
      var saved := m.(disk := m.writing.value.contents, writing := None);
      assert Reborn(boot, n, m, found, draws) == Reborn(boot, n, saved, saved.disk, draws);
      var d := ShadowsRestart(boot, g, n, draws, h, c, Last(cb'), ps, saved, Pending([], p.unread));
      AddEvent(boot, cb', cev', C.Restarts(n, draws), d);
      cb', cev' := cb' + [d], cev' + [C.Restarts(n, draws)];
    }
  }

  lemma ShadowsNext(boot: Replicated, g: Group, e: Event, h: Group, cb: seq<C.Cluster>, cev: seq<C.Event>,
                    ps: map<NodeId, Pending>)
    returns (cb': seq<C.Cluster>, cev': seq<C.Event>, ps': map<NodeId, Pending>)
    requires C.Run(boot, cb, cev) && cb != [] && Shadows(g, Last(cb), ps) && Next(boot, g, e, h) && Careful(g, e)
    ensures C.Run(boot, cb', cev') && cb' != [] && cb <= cb' && Shadows(h, Last(cb'), ps')
  {
    hide C.Run, Shadows, Next, Careful;
    match e
    case Begins(event) => cb', cev', ps' := ShadowsBegins(boot, g, event, h, cb, cev, ps);
    case Reads(n, k) =>
      cb', cev' := cb, cev;
      ps' := ShadowsReads(boot, g, n, k, h, Last(cb), ps);
    case Completes(n) => cb', cev', ps' := ShadowsCompletes(boot, g, n, h, cb, cev, ps);
    case Compacts(n, index, data) => cb', cev', ps' := ShadowsCompacts(boot, g, n, index, data, h, cb, cev, ps);
    case Crashes(n, found, draws) => cb', cev', ps' := ShadowsCrashes(boot, g, n, found, draws, h, cb, cev, ps);
  }

  // ---- runs -------------------------------------------------------------

  ghost function Serial(m: Member): C.Member { C.Member(m.raft, m.disk, m.sm) }

  lemma ShadowsStart(boot: Replicated, g: Group) returns (c: C.Cluster, ps: map<NodeId, Pending>)
    requires Start(boot, g)
    ensures C.Start(boot, c) && Shadows(g, c, ps)
  {
    hide Delayed, StartsFresh, C.StartsFresh;
    c := C.Cluster(map n | n in g.member :: Serial(g.member[n]), {});
    ps := map n | n in g.member :: Pending([], []);
    forall n | n in g.member
      ensures C.StartsFresh(boot, c.member.Keys, n, c.member[n]) && c.member[n].raft.id == n
      ensures Delayed(n, g.member[n], c.member[n], g.net, c.net, ps[n])
    {
      assert StartsFresh(boot, g.member.Keys, n, g.member[n]) && c.member.Keys == g.member.Keys;
      FreshDelayed(boot, g.member.Keys, n, g.member[n]);
    }
  }

  lemma FreshDelayed(boot: Replicated, ids: set<NodeId>, n: NodeId, m: Member)
    requires StartsFresh(boot, ids, n, m)
    ensures C.StartsFresh(boot, ids, n, Serial(m)) && m.raft.id == n
    ensures Delayed(n, m, Serial(m), {}, {}, Pending([], []))
  {
    hide Timeout;
    var none: seq<C.Event> := [];
    assert none + none == none;
  }

  /** The delayed run: `at[i]` is how far it has come by moment `i` of the overlapping one. */
  ghost predicate Tracks(boot: Replicated, b: seq<Group>, cb: seq<C.Cluster>, at: seq<nat>,
                          pss: seq<map<NodeId, Pending>>) {
    && |at| == |pss| == |b|
    && (forall i :: 0 <= i < |b| ==> at[i] < |cb| && Shadows(b[i], cb[at[i]], pss[i]))
    && (forall i, j :: 0 <= i <= j < |b| ==> at[i] <= at[j])
  }

  /**
   * Every careful run of the overlapping group is a delayed run of the serialised group: at
   * every moment it differs from it only by calls that are yet to be made and cannot be seen.
   */
  lemma {:induction false} DelayedRun(boot: Replicated, b: seq<Group>, ev: seq<Event>)
    returns (cb: seq<C.Cluster>, cev: seq<C.Event>, at: seq<nat>, pss: seq<map<NodeId, Pending>>)
    requires CarefulRun(boot, b, ev)
    ensures C.Run(boot, cb, cev) && cb != [] && Tracks(boot, b, cb, at, pss) && at[|b| - 1] == |cb| - 1
    decreases |ev|
  {
    hide Shadows, Start, Next, Careful, C.Start, C.Next;
    if ev == [] {
      var c, ps := ShadowsStart(boot, b[0]);
      cb, cev, at, pss := [c], [], [0], [ps];
    } else {
      var k := |ev| - 1;
      assert CarefulRun(boot, b[..k + 1], ev[..k]);
      cb, cev, at, pss := DelayedRun(boot, b[..k + 1], ev[..k]);
      assert b[..k + 1][k] == b[k];
      var cb', cev', ps' := ShadowsNext(boot, b[k], ev[k], b[k + 1], cb, cev, pss[k]);
      TracksMore(boot, b, cb, at, pss, cb', ps');
      cb, cev, at, pss := cb', cev', at + [|cb'| - 1], pss + [ps'];
    }
  }

  lemma TracksMore(boot: Replicated, b: seq<Group>, cb: seq<C.Cluster>, at: seq<nat>, pss: seq<map<NodeId, Pending>>,
                    cb': seq<C.Cluster>, ps': map<NodeId, Pending>)
    requires |b| > 1 && cb != [] && cb <= cb' && Tracks(boot, b[..|b| - 1], cb, at, pss)
    requires Shadows(b[|b| - 1], Last(cb'), ps')
    ensures Tracks(boot, b, cb', at + [|cb'| - 1], pss + [ps'])
  {
    hide Shadows;
    var at', pss' := at + [|cb'| - 1], pss + [ps'];
    forall i | 0 <= i < |b| ensures at'[i] < |cb'| && Shadows(b[i], cb'[at'[i]], pss'[i]) {
      if i < |b| - 1 {
        assert b[..|b| - 1][i] == b[i] && cb'[at[i]] == cb[at[i]];
      }
    }
  }

  /** With nothing waiting and nothing being written, a careful member is settled: a driver can test that. */
  lemma IdleIsSettled(boot: Replicated, b: seq<Group>, ev: seq<Event>, i: nat, n: NodeId)
    requires CarefulRun(boot, b, ev) && i < |b| && n in b[i].member
    requires b[i].member[n].waiting == [] && b[i].member[n].writing.None?
    ensures Settled(b[i].member[n])
  {
    hide CarefulRun;
    var cb, cev, at, pss := DelayedRun(boot, b, ev);
    var x, p := cb[at[i]].member[n], pss[i][n];
    assert Delayed(n, b[i].member[n], x, b[i].net, cb[at[i]].net, p);
    assert p.read + p.unread == [];
    assert Play(x, p.read + p.unread) == x;
  }
}
