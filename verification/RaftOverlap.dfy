/**
 * The group as its drivers really run it: an engine call hands out its effects at
 * once, but the drain that carries them may be overtaken. A drain that asks for no
 * save sends immediately; one that asks waits its turn to read the engine's latest
 * durable state, writes it, and only then sends. A crash drops everything that is
 * not on disk, at any moment.
 */
module RaftOverlap {
  import opened Model
  import opened RaftSpec
  import C = RaftCluster
  import F = StoreRecovery
  import K = RaftCommit
  import L = RaftLocal
  import R = RaftStore

  /** A save under way: what was read, and the effects that go out once it is written. */
  datatype Write = Write(contents: Persisted, ready: Ready)

  /** `sm` is the state machine as it is once everything handed out so far has been applied. */
  datatype Member = Member(raft: State, disk: Persisted, sm: Replicated, waiting: seq<Ready>, writing: Option<Write>)

  datatype Group = Group(member: map<NodeId, Member>, net: set<C.Packet>)

  datatype Event =
    | Begins(event: C.Event)
    | Reads(n: NodeId, k: nat)
    | Completes(n: NodeId)
    | Compacts(n: NodeId, index: nat, data: Replicated)
    | Crashes(n: NodeId, found: Persisted, draws: nat -> nat)

  ghost predicate Start(boot: Replicated, g: Group) {
    && g.net == {}
    && (forall n :: n in g.member ==> StartsFresh(boot, g.member.Keys, n, g.member[n]))
  }

  ghost predicate StartsFresh(boot: Replicated, ids: set<NodeId>, n: NodeId, m: Member) {
    && m == Member(New(n, m.raft.peers, m.raft.cfg, m.raft.draws, FRESH), FRESH, boot, [], None)
    && Distinct(m.raft.peers) && (forall p :: p in m.raft.peers <==> p in ids && p != n)
  }

  ghost function Actor(e: Event): NodeId {
    match e
    case Begins(event) => C.Actor(event)
    case Reads(n, _) => n
    case Completes(n) => n
    case Compacts(n, _, _) => n
    case Crashes(n, _, _) => n
  }

  /** An engine call and what becomes of its effects right away. */
  ghost function Begun(m: Member, event: C.Event): (Member, seq<Addressed>) {
    var (ready, r) := TakeReady(C.Called(m.raft, event));
    var a := m.(raft := r, sm := K.Deliver(m.sm, ready));
    if ready.persist.None? then (a, ready.messages) else (a.(waiting := m.waiting + [ready]), [])
  }

  predicate SameHardState(p: Persisted, q: Persisted) {
    p.currentTerm == q.currentTerm && p.votedFor == q.votedFor
  }

  /**
   * What opening may find after a crash: a valid state whose term and vote are those
   * of the last completed save or of the one under way. A save cut short can leave
   * any mixture of old and new snapshot, log and commit index.
   */
  ghost predicate MayFind(m: Member, found: Persisted) {
    && L.ValidPersisted(found)
    && (SameHardState(found, m.disk) || (m.writing.Some? && SameHardState(found, m.writing.value.contents)))
  }

  /** Every crash point of a save over its predecessor leaves something of that kind. */
  lemma InterruptedFound(m: Member, w: Write, stage: R.Stage)
    requires m.writing == Some(w) && F.Succeeds(m.disk, w.contents) && !F.Refuses(m.disk, w.contents, stage)
    ensures MayFind(m, F.Interrupted(m.disk, w.contents, stage))
  {
    hide Contiguous;
    var p, q := m.disk, w.contents;
    if stage == R.LogWritten {
      F.UnderEarlierTerm(q, p);
    }
  }

  ghost function Changed(g: Group, n: NodeId, m: Member, sent: seq<Addressed>): Group {
    Group(g.member[n := m], g.net + C.Packets(n, sent))
  }

  /** The member as it comes back from a crash that left `found`. */
  ghost function Reborn(boot: Replicated, n: NodeId, m: Member, found: Persisted, draws: nat -> nat): Member {
    Member(New(n, m.raft.peers, m.raft.cfg, draws, found), found,
           if found.snapshot.Some? then found.snapshot.value else boot, [], None)
  }

  ghost predicate Next(boot: Replicated, g: Group, e: Event, h: Group) {
    var n := Actor(e);
    && n in g.member
    && var m := g.member[n];
       match e
       case Begins(event) =>
         && (event.Ticks? || event.Proposes? || (event.Receives? && event.packet in g.net))
         && h == Changed(g, n, Begun(m, event).0, Begun(m, event).1)
       case Reads(_, k) =>
         && m.writing.None? && k < |m.waiting|
         && h == Changed(g, n, m.(waiting := m.waiting[..k] + m.waiting[k + 1..],
                                  writing := Some(Write(Durable(m.raft), m.waiting[k]))), [])
       case Completes(_) =>
         && m.writing.Some?
         && h == Changed(g, n, m.(disk := m.writing.value.contents, writing := None), m.writing.value.ready.messages)
       case Compacts(_, index, data) =>
         && m.writing.None? && index <= m.raft.lastApplied
         && h == Changed(g, n, m.(raft := Compact(m.raft, index, data), disk := Durable(Compact(m.raft, index, data))),
                         [])
       case Crashes(_, found, draws) =>
         && MayFind(m, found)
         && h == Changed(g, n, Reborn(boot, n, m, found, draws), [])
  }

  ghost predicate Run(boot: Replicated, b: seq<Group>, ev: seq<Event>) {
    && |b| == |ev| + 1 && Start(boot, b[0])
    && (forall i :: 0 <= i < |ev| ==> Next(boot, b[i], ev[i], b[i + 1]))
  }
}
