/**
 * The whole group: members with their engine, their store and their state
 * machine, and the set of all packets ever sent. Packets are never removed, so
 * they may be lost, repeated and reordered at will; members may restart from
 * what they saved at any time, also right after saving and before sending. An
 * engine call, saving its effects, applying and sending them is otherwise one
 * step, which is the driver's contract.
 *
 * The theorems speak about these states only; the history they rest on is
 * recovered step by step in `Histories`.
 */
module RaftCluster {
  import opened Model
  import opened RaftSpec
  import opened RaftNode
  import opened RaftElections
  import opened RaftReplication
  import opened RaftAppends
  import opened RaftCommit
  import L = RaftLocal
  import P = Protocol

  datatype Packet = Packet(from: NodeId, to: NodeId, msg: Message)

  datatype Member = Member(raft: State, disk: Persisted, sm: Replicated)

  datatype Cluster = Cluster(member: map<NodeId, Member>, net: set<Packet>)

  datatype Event =
    | Ticks(n: NodeId)
    | Receives(packet: Packet)
    | Proposes(n: NodeId, command: Command)
    | Compacts(n: NodeId)
    | Restarts(n: NodeId, draws: nat -> nat)
    | Dies(during: Event, draws: nat -> nat)

  ghost predicate Start(boot: Replicated, c: Cluster) {
    && c.net == {}
    && (forall n :: n in c.member ==> StartsFresh(boot, c.member.Keys, n, c.member[n]))
  }

  ghost predicate StartsFresh(boot: Replicated, ids: set<NodeId>, n: NodeId, m: Member) {
    && m.raft == New(n, m.raft.peers, m.raft.cfg, m.raft.draws, FRESH)
    && Distinct(m.raft.peers) && (forall p :: p in m.raft.peers <==> p in ids && p != n)
    && m.disk == FRESH && m.sm == boot
  }

  function Packets(n: NodeId, out: seq<Addressed>): set<Packet> {
    set k | 0 <= k < |out| :: Packet(n, out[k].to, out[k].msg)
  }

  /** Save, apply and send what an engine call left to do. */
  ghost function Drain(c: Cluster, n: NodeId, s: State): Cluster
    requires n in c.member
  {
    var m := c.member[n];
    var (ready, r) := TakeReady(s);
    var disk := if ready.persist.Some? then ready.persist.value else m.disk;
    Cluster(c.member[n := Member(r, disk, Deliver(m.sm, ready))], c.net + Packets(n, ready.messages))
  }

  /** Fold everything applied into the snapshot, saving before it takes effect. */
  ghost function Compacted(m: Member): Member {
    var r := Compact(m.raft, m.raft.lastApplied, m.sm);
    m.(raft := r, disk := Durable(r))
  }

  ghost function Restarted(boot: Replicated, m: Member, draws: nat -> nat): Member {
    Member(New(m.raft.id, m.raft.peers, m.raft.cfg, draws, m.disk), m.disk,
           if m.disk.snapshot.Some? then m.disk.snapshot.value else boot)
  }

  ghost function Actor(e: Event): NodeId {
    match e
    case Ticks(n) => n
    case Receives(p) => p.to
    case Proposes(n, _) => n
    case Compacts(n) => n
    case Restarts(n, _) => n
    case Dies(during, _) => Actor(during)
  }

  /** An engine call that can be made now. */
  ghost predicate Callable(c: Cluster, e: Event) {
    Actor(e) in c.member && (e.Ticks? || e.Proposes? || (e.Receives? && e.packet in c.net))
  }

  /** The engine state an event leads to, before its effects are taken. */
  ghost function Called(s: State, e: Event): State {
    match e
    case Ticks(_) => Tick(s)
    case Receives(p) => Step(s, p.from, p.msg)
    case Proposes(_, command) => Propose(s, command)
    case Compacts(_) => s
    case Restarts(_, _) => s
    case Dies(_, _) => s
  }

  /**
   * The member as it comes back if it dies once the effects of a call are saved, but before
   * they are sent or applied.
   */
  ghost function Revived(boot: Replicated, m: Member, e: Event, draws: nat -> nat): Member {
    Restarted(boot, m.(disk := Durable(Called(m.raft, e))), draws)
  }

  ghost predicate Next(boot: Replicated, c: Cluster, e: Event, d: Cluster) {
    var n := Actor(e);
    && n in c.member
    && match e
       case Compacts(_) => d == c.(member := c.member[n := Compacted(c.member[n])])
       case Restarts(_, draws) => d == c.(member := c.member[n := Restarted(boot, c.member[n], draws)])
       case Dies(during, draws) =>
         Callable(c, during) && d == c.(member := c.member[n := Revived(boot, c.member[n], during, draws)])
       case Receives(p) => p in c.net && d == Drain(c, n, Called(c.member[n].raft, e))
       case _ => d == Drain(c, n, Called(c.member[n].raft, e))
  }

  /** A run: `b[i]` leads to `b[i+1]` by event `ev[i]`. */
  ghost predicate Run(boot: Replicated, b: seq<Cluster>, ev: seq<Event>) {
    && |b| == |ev| + 1 && Start(boot, b[0])
    && (forall i :: 0 <= i < |ev| ==> Next(boot, b[i], ev[i], b[i + 1]))
  }

  // ---- the invariant ----------------------------------------------------

  ghost predicate MemberOk(boot: Replicated, g: P.Global, n: NodeId, m: Member) {
    && NodeOk(boot, g, n, m.raft, m.sm)
    && m.disk == Durable(m.raft) && !m.raft.pendingRestore && L.Valid(m.raft)
  }

  ghost predicate NetOk(boot: Replicated, g: P.Global, net: set<Packet>)
    requires P.WellFormed(g)
  {
    forall p :: p in net ==> MsgOk(boot, g, p.from, p.to, p.msg)
  }

  ghost predicate Agrees(boot: Replicated, c: Cluster, g: P.Global) {
    && P.Inv(g) && c.member.Keys == g.ids
    && (forall n :: n in c.member ==> MemberOk(boot, g, n, c.member[n]))
    && NetOk(boot, g, c.net)
  }

  ghost function FreshHistory(ids: set<NodeId>): P.Global {
    P.Global(ids, map n | n in ids :: P.Core(0, None, [], 0), map[], map[], map[], map[], {}, {})
  }

  lemma FreshInv(ids: set<NodeId>)
    ensures P.Inv(FreshHistory(ids))
  {
    var g := FreshHistory(ids);
    assert P.WellFormed(g);
    assert forall t, i :: !P.Own(g, t, i);
  }

  lemma FreshMember(boot: Replicated, ids: set<NodeId>, n: NodeId, m: Member)
    requires n in ids && StartsFresh(boot, ids, n, m)
    ensures MemberOk(boot, FreshHistory(ids), n, m)
  {
    assert P.WellFormed(FreshHistory(ids));
  }

  lemma StartAgrees(boot: Replicated, c: Cluster) returns (g: P.Global)
    requires Start(boot, c)
    ensures Agrees(boot, c, g)
  {
    hide P.Inv, MemberOk, StartsFresh;
    g := FreshHistory(c.member.Keys);
    FreshInv(c.member.Keys);
    forall n | n in c.member ensures MemberOk(boot, g, n, c.member[n]) {
      FreshMember(boot, c.member.Keys, n, c.member[n]);
    }
  }

  /** The engine call itself. */
  lemma CalledOk(boot: Replicated, g: P.Global, n: NodeId, s: State, sm: Replicated, e: Event) returns (h: P.Global)
    requires P.Inv(g) && NodeOk(boot, g, n, s, sm)
    requires e.Receives? ==> MsgOk(boot, g, e.packet.from, n, e.packet.msg)
    ensures Moved(boot, g, h, n, Called(s, e), sm)
  {
    hide P.Inv, NodeOk, MsgOk, Tick, Propose, P.StepBy, Step;
    Unpack(boot, g, n, s, sm);
    StayPut(g, n);
    h := g;
    match e
    case Ticks(_) => h := TickOk(boot, g, n, s, sm);
    case Receives(p) => h := StepOk(boot, g, n, s, sm, p.from, p.msg);
    case Proposes(_, command) => h := ProposeOk(boot, g, n, s, sm, command);
    case Compacts(_) =>
    case Restarts(_, _) =>
    case Dies(_, _) =>
  }

  lemma StepOk(boot: Replicated, g: P.Global, n: NodeId, s: State, sm: Replicated, from: NodeId, msg: Message)
    returns (h: P.Global)
    requires P.Inv(g) && NodeOk(boot, g, n, s, sm) && MsgOk(boot, g, from, n, msg)
    ensures Moved(boot, g, h, n, Step(s, from, msg), sm)
  {
    hide P.Inv, NodeOk, MsgOk, P.StepBy, HandleRequestVote, HandleVoteResp, HandleAppend, HandleAppendResp,
      HandleInstallSnapshot, HandleInstallSnapshotResp;
    Unpack(boot, g, n, s, sm);
    StayPut(g, n);
    h := g;
    if Admissible(s, from, msg) {
      match msg
      case RequestVote(_, _, _, _, _) => h := HandleRequestVoteOk(boot, g, n, s, sm, from, msg);
      case RequestVoteResp(_, _, _) => h := HandleVoteRespOk(boot, g, n, s, sm, from, msg);
      case AppendEntries(_, _, _, _, _, _) => h := HandleAppendOk(boot, g, n, s, sm, from, msg);
      case AppendEntriesResp(_, _, _) => h := HandleAppendRespOk(boot, g, n, s, sm, from, msg);
      case InstallSnapshot(_, _, _, _, _) => h := HandleInstallSnapshotOk(boot, g, n, s, sm, from, msg);
      case InstallSnapshotResp(_, _, _) => h := HandleInstallSnapshotRespOk(boot, g, n, s, sm, from, msg);
    }
  }

  /** Everything durable that a call changes reaches the store, and it is valid. */
  lemma SavedOk(m: Member, e: Event)
    requires m.disk == Durable(m.raft) && L.Valid(m.raft)
    ensures var (ready, r) := TakeReady(Called(m.raft, e));
            (if ready.persist.Some? then ready.persist.value else m.disk) == Durable(r) && L.Valid(r)
  {
    hide Tick, Step, Propose;
    CalledSound(m.raft, e);
  }

  lemma CalledSound(s: State, e: Event)
    ensures L.Sound(s, Called(s, e))
  {
    hide Tick, Step, Propose, L.Sound;
    match e
    case Ticks(_) => L.TickSound(s);
    case Receives(p) => L.StepSound(s, p.from, p.msg);
    case Proposes(_, command) => L.ProposeSound(s, command);
    case Compacts(_) => L.SameDurable(s, s);
    case Restarts(_, _) => L.SameDurable(s, s);
    case Dies(_, _) => L.SameDurable(s, s);
  }

  lemma PacketsOk(boot: Replicated, g: P.Global, n: NodeId, out: seq<Addressed>)
    requires P.WellFormed(g) && OutOk(boot, g, n, out)
    ensures NetOk(boot, g, Packets(n, out))
  {
  }

  /** Once `n` is in agreement with the new history, so is everybody. */
  lemma OthersOk(boot: Replicated, c: Cluster, g: P.Global, h: P.Global, n: NodeId, m: Member, sent: set<Packet>)
    requires Agrees(boot, c, g) && n in c.member && P.Inv(h) && P.StepBy(g, h, n)
    requires MemberOk(boot, h, n, m) && NetOk(boot, h, sent)
    ensures Agrees(boot, Cluster(c.member[n := m], c.net + sent), h)
  {
    hide P.Inv, MemberOk, NetOk, P.StepBy;
    OthersFrame(boot, c, g, h, n);
    var d := Cluster(c.member[n := m], c.net + sent);
    forall k | k in d.member ensures MemberOk(boot, h, k, d.member[k]) {
      if k != n {
        MemberOkStays(boot, g, h, n, k, c.member[k]);
      }
    }
    NetOkStays(boot, g, h, n, c.net, sent);
  }

  lemma OthersFrame(boot: Replicated, c: Cluster, g: P.Global, h: P.Global, n: NodeId)
    requires Agrees(boot, c, g) && P.StepBy(g, h, n)
    ensures P.WellFormed(g) && P.WellFormed(h) && h.ids == g.ids
  {
  }

  lemma MemberOkStays(boot: Replicated, g: P.Global, h: P.Global, n: NodeId, k: NodeId, m: Member)
    requires P.StepBy(g, h, n) && MemberOk(boot, g, k, m) && k != n
    ensures MemberOk(boot, h, k, m)
  {
    hide NodeOk, L.Valid;
    NodeOkStays(boot, g, h, n, k, m.raft, m.sm);
  }

  lemma NetOkStays(boot: Replicated, g: P.Global, h: P.Global, n: NodeId, net: set<Packet>, sent: set<Packet>)
    requires P.WellFormed(g) && P.WellFormed(h) && P.StepBy(g, h, n) && NetOk(boot, g, net) && NetOk(boot, h, sent)
    ensures NetOk(boot, h, net + sent)
  {
    hide MsgOk, P.StepBy;
    forall p | p in net + sent ensures MsgOk(boot, h, p.from, p.to, p.msg) {
      if p in net {
        MsgOkStays(boot, g, h, n, p.from, p.to, p.msg);
      }
    }
  }

  lemma DrainAgrees(boot: Replicated, c: Cluster, g: P.Global, e: Event) returns (h: P.Global)
    requires Agrees(boot, c, g) && Actor(e) in c.member
    requires e.Receives? ==> e.packet in c.net
    ensures Agrees(boot, Drain(c, Actor(e), Called(c.member[Actor(e)].raft, e)), h) && P.StepBy(g, h, Actor(e))
  {
    hide P.Inv, NodeOk, MsgOk, Called, P.StepBy;
    var n := Actor(e);
    var m := c.member[n];
    var s := Called(m.raft, e);
    ActorOfPacket(e);
    h := CalledOk(boot, g, n, m.raft, m.sm, e);
    TakeReadyOk(boot, h, n, s, m.sm);
    SavedOk(m, e);
    var (ready, r) := TakeReady(s);
    var disk := if ready.persist.Some? then ready.persist.value else m.disk;
    Unpack(boot, h, n, s, m.sm);
    PacketsOk(boot, h, n, ready.messages);
    OthersOk(boot, c, g, h, n, Member(r, disk, Deliver(m.sm, ready)), Packets(n, ready.messages));
  }

  lemma ActorOfPacket(e: Event)
    ensures e.Receives? ==> Actor(e) == e.packet.to
  {
  }

  lemma CompactsAgrees(boot: Replicated, c: Cluster, g: P.Global, n: NodeId)
    requires Agrees(boot, c, g) && n in c.member
    ensures Agrees(boot, c.(member := c.member[n := Compacted(c.member[n])]), g)
  {
    hide P.Inv, NodeOk, MsgOk, L.Valid, Compact;
    var m := c.member[n];
    Unpack(boot, g, n, m.raft, m.sm);
    StayPut(g, n);
    CompactOk(boot, g, n, m.raft, m.sm, m.raft.lastApplied);
    CompactValid(m.raft, m.raft.lastApplied, m.sm);
    OthersOk(boot, c, g, g, n, Compacted(m), {});
    assert c.net + {} == c.net;
  }

  lemma CompactValid(s: State, index: nat, data: Replicated)
    requires L.Valid(s)
    ensures L.Valid(Compact(s, index, data)) && Compact(s, index, data).pendingRestore == s.pendingRestore
  {
    L.CompactSound(s, index, data);
  }

  lemma RestartsAgrees(boot: Replicated, c: Cluster, g: P.Global, n: NodeId, draws: nat -> nat)
    requires Agrees(boot, c, g) && n in c.member
    ensures Agrees(boot, c.(member := c.member[n := Restarted(boot, c.member[n], draws)]), g)
  {
    hide P.Inv, NetOk, P.StepBy, Restarted, MemberOk;
    var m := c.member[n];
    RestartedOk(boot, g, n, m, draws);
    StayPut(g, n);
    NothingSent(boot, g);
    OthersOk(boot, c, g, g, n, Restarted(boot, m, draws), {});
    assert c.net + {} == c.net;
  }

  lemma RestartedOk(boot: Replicated, g: P.Global, n: NodeId, m: Member, draws: nat -> nat)
    requires MemberOk(boot, g, n, m)
    ensures P.WellFormed(g) && MemberOk(boot, g, n, Restarted(boot, m, draws))
  {
    hide NodeOk, Timeout;
    Unpack(boot, g, n, m.raft, m.sm);
    RestartOk(boot, g, n, m.raft, m.sm, draws);
  }

  /** A member that died after saving comes back in agreement with the history its last call made. */
  lemma DiesAgrees(boot: Replicated, c: Cluster, g: P.Global, e: Event, draws: nat -> nat) returns (h: P.Global)
    requires Agrees(boot, c, g) && Callable(c, e)
    ensures P.StepBy(g, h, Actor(e))
    ensures Agrees(boot, c.(member := c.member[Actor(e) := Revived(boot, c.member[Actor(e)], e, draws)]), h)
  {
    hide P.Inv, NodeOk, MsgOk, Called, P.StepBy, L.Valid;
    var n := Actor(e);
    var m := c.member[n];
    ActorOfPacket(e);
    h := CalledOk(boot, g, n, m.raft, m.sm, e);
    RevivedOk(boot, h, n, m, e, draws);
    NothingSent(boot, h);
    OthersOk(boot, c, g, h, n, Revived(boot, m, e, draws), {});
    assert c.net + {} == c.net;
  }

  lemma RevivedOk(boot: Replicated, h: P.Global, n: NodeId, m: Member, e: Event, draws: nat -> nat)
    requires L.Valid(m.raft) && NodeOk(boot, h, n, Called(m.raft, e), m.sm)
    ensures P.WellFormed(h) && MemberOk(boot, h, n, Revived(boot, m, e, draws))
  {
    hide NodeOk, Timeout, Called;
    var s := Called(m.raft, e);
    Unpack(boot, h, n, s, m.sm);
    RestartOk(boot, h, n, s, m.sm, draws);
    CalledSound(m.raft, e);
  }

  lemma NothingSent(boot: Replicated, g: P.Global)
    requires P.WellFormed(g)
    ensures NetOk(boot, g, {})
  {
  }

  /** Every event keeps the group in agreement with a history that only grows. */
  lemma NextAgrees(boot: Replicated, c: Cluster, g: P.Global, e: Event, d: Cluster) returns (h: P.Global)
    requires Agrees(boot, c, g) && Next(boot, c, e, d)
    ensures Agrees(boot, d, h) && P.StepBy(g, h, Actor(e))
  {
    hide P.Inv, MemberOk, NetOk, P.StepBy, Called, Compacted, Restarted, Drain, Revived;
    match e
    case Compacts(n) =>
      h := g;
      AgreesWellFormed(boot, c, g);
      StayPut(g, n);
      CompactsAgrees(boot, c, g, n);
    case Restarts(n, draws) =>
      h := g;
      AgreesWellFormed(boot, c, g);
      StayPut(g, n);
      RestartsAgrees(boot, c, g, n, draws);
    case Dies(during, draws) => h := DiesAgrees(boot, c, g, during, draws);
    case _ => h := DrainAgrees(boot, c, g, e);
  }

  lemma AgreesWellFormed(boot: Replicated, c: Cluster, g: P.Global)
    requires Agrees(boot, c, g)
    ensures P.WellFormed(g)
  {
  }

  // ---- histories of runs ------------------------------------------------

  /** `h` is a later history than `g`. */
  ghost predicate Later(g: P.Global, h: P.Global) {
    && P.WellFormed(g) && P.WellFormed(h) && g.ids == h.ids
    && (forall n :: n in g.ids ==> g.core[n].term <= h.core[n].term)
    && (forall t :: t in g.leaderOf ==>
          t in h.leaderOf && h.leaderOf[t] == g.leaderOf[t] && g.leaderLog[t] <= h.leaderLog[t])
    && (forall x :: x in g.candLog ==> x in h.candLog && h.candLog[x] == g.candLog[x])
    && g.votes <= h.votes && g.acks <= h.acks
  }

  lemma StepIsLater(g: P.Global, h: P.Global, n: NodeId)
    requires P.StepBy(g, h, n)
    ensures Later(g, h)
  {
  }

  lemma LaterTransitive(f: P.Global, g: P.Global, h: P.Global)
    requires Later(f, g) && Later(g, h)
    ensures Later(f, h)
  {
  }

  ghost predicate IsHistory(boot: Replicated, b: seq<Cluster>, hs: seq<P.Global>) {
    && |hs| == |b|
    && (forall i :: 0 <= i < |b| ==> Agrees(boot, b[i], hs[i]))
    && (forall i, j :: 0 <= i <= j < |b| ==> Later(hs[i], hs[j]))
  }

  /** Every run has a history its states agree with throughout. */
  lemma {:induction false} Histories(boot: Replicated, b: seq<Cluster>, ev: seq<Event>) returns (hs: seq<P.Global>)
    requires Run(boot, b, ev)
    ensures |hs| == |b| && IsHistory(boot, b, hs)
    decreases |ev|
  {
    hide Agrees, Next, Later, Start;
    if ev == [] {
      var g := StartAgrees(boot, b[0]);
      hs := [g];
      LaterSelf(boot, b[0], g);
    } else {
      var k := |ev| - 1;
      var c := b[..k + 1];
      var past := Histories(boot, c, ev[..k]);
      assert c[k] == b[k];
      var h := NextAgrees(boot, b[k], past[k], ev[k], b[k + 1]);
      hs := past + [h];
      StepIsLater(past[k], h, Actor(ev[k]));
      LaterSelf(boot, b[k + 1], h);
      forall i, j | 0 <= i <= j < |b| ensures Later(hs[i], hs[j]) {
        if i <= k < j {
          LaterTransitive(past[i], past[k], h);
        }
      }
      forall i | 0 <= i < |b| ensures Agrees(boot, b[i], hs[i]) {
        if i <= k {
          assert c[i] == b[i];
        }
      }
    }
  }

  lemma LaterSelf(boot: Replicated, c: Cluster, g: P.Global)
    requires Agrees(boot, c, g)
    ensures Later(g, g)
  {
  }
}
