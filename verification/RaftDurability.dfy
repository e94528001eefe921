/**
 * What is on disk when a drain sends. Over every run with overlapping drains: exactly
 * when what a call hands out without asking for a save is covered by the disk, and two
 * ways in which it is not.
 */
module RaftDurability {
  import opened Model
  import opened RaftSpec
  import opened RaftSplice
  import opened RaftOverlap
  import opened RaftDelay
  import C = RaftCluster
  import G = RaftProgress
  import K = RaftCommit
  import L = RaftLocal
  import O = RaftOverlapSafety

  // ---- when the disk was read -------------------------------------------

  /** The moments at which what is on disk, and what is being written, was read from the engine. */
  datatype Moments = Moments(disk: nat, writing: nat)

  ghost function ReadAt(ev: seq<Event>, n: NodeId, j: nat): Moments
    requires j <= |ev|
  {
    if j == 0 then Moments(0, 0)
    else
      var r := ReadAt(ev, n, j - 1);
      match ev[j - 1]
      case Reads(m, _) => if m == n then r.(writing := j) else r
      case Completes(m) => if m == n then r.(disk := r.writing) else r
      case Compacts(m, _, _) => if m == n then r.(disk := j) else r
      case Crashes(m, _, _) => if m == n then r.(disk := j) else r
      case Begins(_) => r
  }

  /** What is durable in the engine of `n` at moment `i`. */
  ghost function DurableAt(b: seq<Group>, n: NodeId, i: nat): Persisted
    requires i < |b| && n in b[i].member
  {
    Durable(b[i].member[n].raft)
  }

  /** Event `i` is a call of `n` that asks for a save. */
  ghost predicate Asks(b: seq<Group>, ev: seq<Event>, n: NodeId, i: nat)
    requires i < |ev| && i < |b|
  {
    ev[i].Begins? && Actor(ev[i]) == n && n in b[i].member && !AsksNoSave(b[i].member[n], ev[i].event)
  }

  /** Event `i` is a crash or a compaction of `n`: what is durable then is on disk at once. */
  predicate Resets(ev: seq<Event>, n: NodeId, i: nat)
    requires i < |ev|
  {
    (ev[i].Crashes? || ev[i].Compacts?) && ev[i].n == n
  }

  lemma Present(boot: Replicated, b: seq<Group>, ev: seq<Event>, n: NodeId, i: nat, j: nat)
    requires Run(boot, b, ev) && i < |b| && n in b[i].member && j < |b|
    ensures n in b[j].member
  {
    hide O.Inv;
    O.RunOk(boot, b, ev, if i < j then i else j, if i < j then j else i);
  }

  /** Member `n` agrees with the moments: the disk and the save under way hold what was durable then. */
  ghost predicate ReadsOk(b: seq<Group>, n: NodeId, j: nat, r: Moments) {
    && j < |b| && n in b[j].member && r.disk <= j && r.writing <= j
    && n in b[r.disk].member && b[j].member[n].disk == DurableAt(b, n, r.disk)
    && (b[j].member[n].writing.Some? ==>
          r.disk <= r.writing && n in b[r.writing].member
          && b[j].member[n].writing.value.contents == DurableAt(b, n, r.writing))
  }

  lemma {:induction false} DiskIsRead(boot: Replicated, b: seq<Group>, ev: seq<Event>, n: NodeId, j: nat)
    requires Run(boot, b, ev) && j < |b| && n in b[j].member
    ensures ReadsOk(b, n, j, ReadAt(ev, n, j))
    decreases j
  {
    if j == 0 {
      FreshIsRead(boot, b[0], n);
    } else {
      Present(boot, b, ev, n, j, j - 1);
      DiskIsRead(boot, b, ev, n, j - 1);
      assert Next(boot, b[j - 1], ev[j - 1], b[j]);
      hide Run, Start;
      ReadNext(boot, b, ev, n, j - 1);
    }
  }

  lemma FreshIsRead(boot: Replicated, g: Group, n: NodeId)
    requires Start(boot, g) && n in g.member
    ensures g.member[n].disk == Durable(g.member[n].raft) && g.member[n].writing.None?
  {
    hide Timeout;
    assert StartsFresh(boot, g.member.Keys, n, g.member[n]);
  }

  lemma ReadNext(boot: Replicated, b: seq<Group>, ev: seq<Event>, n: NodeId, i: nat)
    requires i < |ev| && i + 1 < |b| && Next(boot, b[i], ev[i], b[i + 1]) && n in b[i + 1].member
    requires ReadsOk(b, n, i, ReadAt(ev, n, i))
    ensures ReadsOk(b, n, i + 1, ReadAt(ev, n, i + 1))
  {
    hide C.Called, Compact, MayFind, New;
    if ev[i].Crashes? && ev[i].n == n {
      RebornHolds(boot, n, b[i].member[n], ev[i].found, ev[i].draws);
    }
  }

  lemma RebornHolds(boot: Replicated, n: NodeId, m: Member, found: Persisted, draws: nat -> nat)
    ensures Durable(Reborn(boot, n, m, found, draws).raft) == found
  {
  }

  // ---- what changes in between ------------------------------------------

  lemma Steady(boot: Replicated, b: seq<Group>, ev: seq<Event>, n: NodeId, i: nat)
    requires Run(boot, b, ev) && i < |ev| && n in b[i].member && n in b[i + 1].member
    requires !Asks(b, ev, n, i) && !Resets(ev, n, i)
    ensures DurableAt(b, n, i + 1) == DurableAt(b, n, i)
  {
    assert Next(boot, b[i], ev[i], b[i + 1]);
    var m := b[i].member[n];
    if ev[i].Begins? && Actor(ev[i]) == n {
      ValidMember(boot, b, ev, n, i);
      hide C.Called, L.Valid, Run;
      C.CalledSound(m.raft, ev[i].event);
      SoundKeeps(m.raft, C.Called(m.raft, ev[i].event));
    }
  }

  lemma ValidMember(boot: Replicated, b: seq<Group>, ev: seq<Event>, n: NodeId, i: nat)
    requires Run(boot, b, ev) && i < |b| && n in b[i].member
    ensures L.Valid(b[i].member[n].raft)
  {
    hide O.Ordered, O.Backed, O.Single, O.Asked, O.Elected;
    O.RunOk(boot, b, ev, i, i);
    assert O.Ok(b[i], n);
  }

  lemma {:induction false} SteadyLong(boot: Replicated, b: seq<Group>, ev: seq<Event>, n: NodeId, i: nat, k: nat)
    requires Run(boot, b, ev) && i <= k < |b| && n in b[i].member && n in b[k].member
    requires forall x :: i <= x < k ==> !Asks(b, ev, n, x) && !Resets(ev, n, x)
    ensures DurableAt(b, n, k) == DurableAt(b, n, i)
    decreases k
  {
    hide Run, Asks;
    RunShape(boot, b, ev);
    if i < k {
      Present(boot, b, ev, n, k, k - 1);
      SteadyLong(boot, b, ev, n, i, k - 1);
      Steady(boot, b, ev, n, k - 1);
    }
  }

  lemma RunShape(boot: Replicated, b: seq<Group>, ev: seq<Event>)
    requires Run(boot, b, ev)
    ensures |b| == |ev| + 1
  {
  }

  /** Every crash and compaction so far came before the disk was last read. */
  lemma {:induction false} ResetsRead(boot: Replicated, b: seq<Group>, ev: seq<Event>, n: NodeId, j: nat, i: nat)
    requires Run(boot, b, ev) && i < j < |b| && j <= |ev| && n in b[j].member && Resets(ev, n, i)
    ensures i < ReadAt(ev, n, j).disk
    decreases j
  {
    hide Run, ReadsOk;
    if i < j - 1 {
      Present(boot, b, ev, n, j, j - 1);
      ResetsRead(boot, b, ev, n, j - 1, i);
      DiskIsRead(boot, b, ev, n, j - 1);
      ReadForward(boot, b, ev, n, j - 1);
    }
  }

  /** What is on disk is never replaced by something read earlier. */
  lemma ReadForward(boot: Replicated, b: seq<Group>, ev: seq<Event>, n: NodeId, i: nat)
    requires Run(boot, b, ev) && i < |ev| && i + 1 < |b| && ReadsOk(b, n, i, ReadAt(ev, n, i))
    ensures ReadAt(ev, n, i).disk <= ReadAt(ev, n, i + 1).disk
  {
    if ev[i] == Completes(n) {
      assert Next(boot, b[i], ev[i], b[i + 1]);
    }
  }

  // ---- what is covered --------------------------------------------------

  /**
   * What call `k` of `n` handed out is covered at moment `j`: a restart would bring back
   * exactly what the call left, or what a save read after it.
   */
  ghost predicate Covered(b: seq<Group>, ev: seq<Event>, n: NodeId, k: nat, j: nat)
    requires k < j < |b| && j <= |ev| && n in b[k + 1].member && n in b[j].member
  {
    ReadAt(ev, n, j).disk > k || b[j].member[n].disk == DurableAt(b, n, k + 1)
  }

  /** A call of `n` that asks for no save. */
  ghost predicate Hasty(b: seq<Group>, ev: seq<Event>, n: NodeId, k: nat)
    requires k < |ev| && k < |b|
  {
    ev[k].Begins? && Actor(ev[k]) == n && n in b[k].member && AsksNoSave(b[k].member[n], ev[k].event)
  }

  /**
   * When a drain that asks for no save may send. For every run and every later moment
   * before the member next crashes: what such a call hands out is covered by the disk if
   * and only if the disk was read after every call up to it that asked for a save, or
   * nothing durable has changed since it was read.
   */
  lemma CoveredExactly(boot: Replicated, b: seq<Group>, ev: seq<Event>, n: NodeId, k: nat, j: nat)
    requires Run(boot, b, ev) && k < j < |b| && j <= |ev| && n in b[k + 1].member && n in b[j].member
    requires Hasty(b, ev, n, k) && forall i :: k < i < j ==> !(ev[i].Crashes? && ev[i].n == n)
    ensures Covered(b, ev, n, k, j) <==>
            || (forall i :: 0 <= i <= k && Asks(b, ev, n, i) ==> i < ReadAt(ev, n, j).disk)
            || DurableAt(b, n, k + 1) == b[j].member[n].disk
  {
    hide Run, Asks, DurableAt, Hasty;
    var d := ReadAt(ev, n, j).disk;
    if d <= k && forall i :: 0 <= i <= k && Asks(b, ev, n, i) ==> i < d {
      hide ReadAt;
      SinceRead(boot, b, ev, n, k, j, d);
    }
  }

  /** Without a save asked for since the disk was read, it holds what is durable. */
  lemma SinceRead(boot: Replicated, b: seq<Group>, ev: seq<Event>, n: NodeId, k: nat, j: nat, d: nat)
    requires Run(boot, b, ev) && k < j < |b| && j <= |ev| && n in b[k + 1].member && n in b[j].member
    requires d == ReadAt(ev, n, j).disk <= k && forall i :: 0 <= i <= k && Asks(b, ev, n, i) ==> i < d
    ensures DurableAt(b, n, k + 1) == b[j].member[n].disk
  {
    hide Run, Asks, ReadAt, Resets;
    DiskIsRead(boot, b, ev, n, j);
    forall x | d <= x < k + 1 ensures !Asks(b, ev, n, x) && !Resets(ev, n, x) {
      if Resets(ev, n, x) {
        ResetsRead(boot, b, ev, n, j, x);
      }
    }
    SteadyLong(boot, b, ev, n, d, k + 1);
  }

  /** The guard of careful runs is this coverage, at the moment of sending, by disk and save under way alike. */
  lemma SettledIsCovered(boot: Replicated, b: seq<Group>, ev: seq<Event>, n: NodeId, k: nat)
    requires Run(boot, b, ev) && k + 1 < |b| && k < |ev| && n in b[k + 1].member && Hasty(b, ev, n, k)
    ensures Settled(b[k].member[n]) <==>
            && Covered(b, ev, n, k, k + 1)
            && (b[k].member[n].writing.Some? ==> b[k].member[n].writing.value.contents == b[k].member[n].disk)
  {
    DiskIsRead(boot, b, ev, n, k);
    assert ReadAt(ev, n, k + 1) == ReadAt(ev, n, k);
    Steady(boot, b, ev, n, k);
    assert Next(boot, b[k], ev[k], b[k + 1]);
  }

  // ---- what an acknowledgement vouches for ------------------------------

  /** A successful append is held: every entry of it that is not under the base is live, with its term. */
  ghost predicate HeldBy(r: State, req: Message)
    requires req.AppendEntries?
  {
    forall k :: 0 <= k < |req.entries| && r.baseIndex < req.entries[k].index ==>
      L.EntryAt(r, req.entries[k].index).Some? && L.EntryAt(r, req.entries[k].index).value.term == req.entries[k].term
  }

  lemma SpliceHeld(s: State, entries: seq<Entry>, prev: nat, k: nat)
    requires s.baseIndex <= s.commitIndex <= LastIndex(s) && prev <= LastIndex(s) && k < |entries|
    requires forall k :: 0 <= k < |entries| ==> entries[k].index == prev + 1 + k && entries[k].term > 0
    requires Splice(s, entries, prev).ok && s.baseIndex < prev + 1 + k
    ensures var r := Splice(s, entries, prev).state;
            && r.baseIndex == s.baseIndex && prev + 1 + k <= LastIndex(r)
            && r.log[prev + k - s.baseIndex].term == entries[k].term
  {
    hide Splice;
    var m := SpliceForm(s, entries, prev);
    var r := Splice(s, entries, prev).state;
    if k < m {
      assert TermAt(s, prev + 1 + k) == entries[k].term;
      assert r.log[prev + k - s.baseIndex] == s.log[prev + k - s.baseIndex];
    } else {
      assert r.log[prev + k - s.baseIndex] == entries[m..][k - m];
    }
  }

  /** What an answered append vouches for is in the member's log, and so on a disk that holds its durable state. */
  lemma AcknowledgedIsHeld(s: State, from: NodeId, req: Message)
    requires req.AppendEntries? && EntriesAreContiguous(req) && L.Valid(s)
    ensures var r := AcceptAppend(s, from, req);
            && r.out != []
            && (r.out[|r.out| - 1].msg == AppendEntriesResp(s.currentTerm, true, req.prevLogIndex + |req.entries|) ==>
                  HeldBy(r, req))
  {
    hide Splice, TermAt;
    var r := AcceptAppend(s, from, req);
    if req.prevLogIndex <= LastIndex(s) && (req.prevLogIndex == 0 || TermAt(s, req.prevLogIndex) == req.prevLogTerm)
       && Splice(s, req.entries, req.prevLogIndex).ok {
      forall k | 0 <= k < |req.entries| && r.baseIndex < req.entries[k].index
        ensures L.EntryAt(r, req.entries[k].index).Some?
        ensures L.EntryAt(r, req.entries[k].index).value.term == req.entries[k].term
      {
        G.AcceptAppendFrame(s, from, req);
        SpliceHeld(s, req.entries, req.prevLogIndex, k);
      }
    }
  }

  // ---- what is sent and not covered -------------------------------------

  /**
   * A repeated append is clean the second time, so its drain does not wait for the
   * save of the first: the acknowledgement leaves before anything is on disk.
   */
  lemma AckBeforeSave(boot: Replicated, id: NodeId, leader: NodeId, cfg: Config, draws: nat -> nat, command: Command)
    requires id != leader
    ensures var m := Member(New(id, [leader], cfg, draws, FRESH), FRESH, boot, [], None);
            var e := Entry(1, 1, Some(command));
            var append := C.Receives(C.Packet(leader, id, AppendEntries(1, leader, 0, 0, [e], 0)));
            var first := Begun(m, append).0;
            && first.raft.log == [e] && first.disk == FRESH && !Settled(first) && AsksNoSave(first, append)
            && Begun(first, append).1 == [Addressed(leader, AppendEntriesResp(1, true, 1))]
  {
    hide Timeout, K.Deliver;
    var s := New(id, [leader], cfg, draws, FRESH);
    var e := Entry(1, 1, Some(command));
    var msg := AppendEntries(1, leader, 0, 0, [e], 0);
    FirstAppend(s, leader, msg, e);
    SecondAppend(TakeReady(Step(s, leader, msg)).1, leader, msg, e);
  }

  /**
   * Nothing need be repeated: a leader's heartbeat right after a proposal sends the
   * proposed entry while the leader's own disk does not have it.
   */
  lemma HeartbeatBeforeSave(m: Member, n: NodeId, command: Command, p: NodeId)
    requires m.raft.role == Leader && !m.raft.dirty && m.raft.out == [] && Settled(m) && p in m.raft.peers
    requires m.raft.heartbeatElapsed + 1 >= m.raft.cfg.heartbeatTicks
    requires p in m.raft.nextIndex && m.raft.baseIndex < m.raft.nextIndex[p] <= LastIndex(m.raft) + 1
    ensures var e := Entry(m.raft.currentTerm, LastIndex(m.raft) + 1, Some(command));
            var first := Begun(m, C.Proposes(n, command)).0;
            && first.raft.log == m.raft.log + [e] && first.disk == m.disk && !Settled(first)
            && AsksNoSave(first, C.Ticks(n))
            && exists msg :: Addressed(p, msg) in Begun(first, C.Ticks(n)).1 && Carries(msg, e)
  {
    hide K.Deliver, Tick, Propose;
    var e := Entry(m.raft.currentTerm, LastIndex(m.raft) + 1, Some(command));
    ProposesFirst(m.raft, command);
    var first := Begun(m, C.Proposes(n, command)).0;
    TickSends(first.raft, p, e);
  }

  /** An append whose last entry is `e`. */
  predicate Carries(msg: Message, e: Entry) {
    msg.AppendEntries? && msg.entries != [] && msg.entries[|msg.entries| - 1] == e
  }

  lemma ProposesFirst(s: State, command: Command)
    requires s.role == Leader
    ensures var e := Entry(s.currentTerm, LastIndex(s) + 1, Some(command));
            var (ready, r) := TakeReady(Propose(s, command));
            && ready.persist.Some? && r.log == s.log + [e] && !r.dirty && r.out == [] && r.role == Leader
            && r.nextIndex == s.nextIndex && r.peers == s.peers && r.baseIndex == s.baseIndex && r.cfg == s.cfg
            && r.heartbeatElapsed == s.heartbeatElapsed && r.currentTerm == s.currentTerm
  {
    hide HighestCommittable, SendAppends, Batch;
  }

  lemma TickSends(s: State, p: NodeId, e: Entry)
    requires s.role == Leader && !s.dirty && s.out == [] && p in s.peers && s.log != [] && s.log[|s.log| - 1] == e
    requires s.heartbeatElapsed + 1 >= s.cfg.heartbeatTicks
    requires p in s.nextIndex && s.baseIndex < s.nextIndex[p] <= LastIndex(s)
    ensures !Tick(s).dirty && exists msg :: Addressed(p, msg) in Tick(s).out && Carries(msg, e)
  {
    hide SendAppends, Timeout;
    var a := s.(heartbeatElapsed := 0);
    assert Heartbeat(s) == SendAppends(a, s.peers);
    Carried(a, s.peers, p, e);
    assert Tick(s).out == SendAppends(a, s.peers).out;
  }

  lemma EndsWith(s: State, next: nat, e: Entry)
    requires s.log != [] && s.log[|s.log| - 1] == e && s.baseIndex < next <= LastIndex(s)
    ensures EntriesFrom(s, next) != [] && EntriesFrom(s, next)[|EntriesFrom(s, next)| - 1] == e
  {
  }

  lemma {:induction false} Carried(s: State, ps: seq<NodeId>, p: NodeId, e: Entry)
    requires p in ps && s.log != [] && s.log[|s.log| - 1] == e
    requires p in s.nextIndex && s.baseIndex < s.nextIndex[p] <= LastIndex(s)
    ensures exists msg :: Addressed(p, msg) in SendAppends(s, ps).out && Carries(msg, e)
  {
    hide TermAt, EntriesFrom;
    var k := |ps| - 1;
    var a := SendAppends(s, ps[..k]);
    if p == ps[k] {
      var next := a.nextIndex[p];
      var msg := AppendEntries(a.currentTerm, a.id, next - 1, TermAt(a, next - 1), EntriesFrom(a, next), a.commitIndex);
      EndsWith(a, next, e);
      assert SendAppends(s, ps).out == a.out + [Addressed(p, msg)];
      assert Carries(msg, e);
    } else {
      assert p in ps[..k];
      Carried(s, ps[..k], p, e);
      var msg :| Addressed(p, msg) in a.out && Carries(msg, e);
      assert a.out <= SendAppends(s, ps).out;
    }
  }

  lemma FirstAppend(s: State, leader: NodeId, m: Message, e: Entry)
    requires s.peers == [leader] && s.currentTerm == 0 && s.log == [] && s.baseIndex == 0 && s.commitIndex == 0
    requires m == AppendEntries(1, leader, 0, 0, [e], 0) && e.term == 1 && e.index == 1
    ensures var (ready, r) := TakeReady(Step(s, leader, m));
            ready.persist.Some? && r.log == [e] && r.peers == [leader] && r.currentTerm == 1 && r.baseIndex == 0
            && r.commitIndex == 0 && r.out == [] && !r.dirty
  {
    hide Timeout;
    var f := BecomeFollower(BecomeFollower(s, 1, None), 1, Some(leader));
    assert Step(s, leader, m) == AcceptAppend(f, leader, m);
    SpliceFirst(f, e);
  }

  lemma SecondAppend(s: State, leader: NodeId, m: Message, e: Entry)
    requires s.peers == [leader] && s.currentTerm == 1 && s.log == [e] && s.baseIndex == 0 && s.commitIndex == 0
    requires m == AppendEntries(1, leader, 0, 0, [e], 0) && e.term == 1 && e.index == 1 && s.out == [] && !s.dirty
    ensures var (ready, r) := TakeReady(Step(s, leader, m));
            ready.persist.None? && r.log == [e] && ready.messages == [Addressed(leader, AppendEntriesResp(1, true, 1))]
  {
    hide Timeout;
    var f := BecomeFollower(s, 1, Some(leader));
    assert Step(s, leader, m) == AcceptAppend(f, leader, m);
    SpliceKnown(f, e);
  }

  lemma SpliceFirst(f: State, e: Entry)
    requires f.log == [] && f.baseIndex == 0 && e.index == 1
    ensures Splice(f, [e], 0) == Spliced(f.(log := [e], dirty := true), 1, true)
  {
    assert [e][1..] == [];
    assert f.log + [e] == [e];
    assert Splice(f.(log := [e], dirty := true), [], 1) == Spliced(f.(log := [e], dirty := true), 1, true);
  }

  lemma SpliceKnown(g: State, e: Entry)
    requires g.log == [e] && g.baseIndex == 0 && e.index == 1
    ensures Splice(g, [e], 0) == Spliced(g, 1, true)
  {
    assert [e][1..] == [];
    assert Splice(g, [], 1) == Spliced(g, 1, true);
  }
}
