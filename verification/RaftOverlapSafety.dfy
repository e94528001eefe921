/**
 * What survives when drains overlap and members crash at any moment: no term ever
 * has two leaders, because a ballot goes out only once the vote it rests on is on
 * disk.
 */
module RaftOverlapSafety {
  import opened Model
  import opened RaftSpec
  import opened RaftOverlap
  import opened RaftBallots
  import C = RaftCluster
  import F = StoreRecovery
  import L = RaftLocal
  import P = Protocol
  import R = RaftStore

  // ---- ballots and what stands behind them ------------------------------

  /** A later term, or this term with this vote. */
  predicate Covers(p: Persisted, term: nat, vote: NodeId) {
    p.currentTerm > term || (p.currentTerm == term && p.votedFor == Some(vote))
  }

  /** `p` stands behind what `n` sends: the vote it grants, or the one it gave itself before asking. */
  predicate Backs(p: Persisted, n: NodeId, a: Addressed) {
    && (IsGrant(a.msg) ==> Covers(p, a.msg.term, a.to))
    && (IsRequest(a.msg) ==> Covers(p, a.msg.term, n))
  }

  /** A successor stands behind whatever its predecessor did. */
  lemma SuccessorBacks(p: Persisted, q: Persisted, n: NodeId, a: Addressed)
    requires F.Succeeds(p, q) && Backs(p, n, a)
    ensures Backs(q, n, a)
  {
    hide L.ValidPersisted;
  }

  /** Messages handed out but not sent yet. */
  function Held(m: Member): set<Addressed> {
    (set k, i | 0 <= k < |m.waiting| && 0 <= i < |m.waiting[k].messages| :: m.waiting[k].messages[i])
    + if m.writing.Some? then (set i | 0 <= i < |m.writing.value.ready.messages| :: m.writing.value.ready.messages[i])
      else {}
  }

  /** `n` has handed out `a`, and it is not lost. */
  ghost predicate Alive(g: Group, n: NodeId, a: Addressed)
    requires n in g.member
  {
    a in Held(g.member[n]) || C.Packet(n, a.to, a.msg) in g.net
  }

  // ---- the invariant ----------------------------------------------------

  ghost predicate Shape(ids: set<NodeId>, n: NodeId, m: Member) {
    && m.raft.id == n && n in ids && Distinct(m.raft.peers) && (forall p :: p in m.raft.peers <==> p in ids && p != n)
    && L.Valid(m.raft) && L.ValidPersisted(m.disk) && Entitled(m.raft) && m.raft.out == []
  }

  /** Disk, save under way and engine follow one another, and what is being written stands behind what follows it. */
  ghost predicate Ordered(n: NodeId, m: Member) {
    && F.Succeeds(m.disk, Durable(m.raft))
    && (m.writing.Some? ==>
          var w := m.writing.value;
          && F.Succeeds(m.disk, w.contents) && F.Succeeds(w.contents, Durable(m.raft))
          && (forall i :: 0 <= i < |w.ready.messages| ==> Backs(w.contents, n, w.ready.messages[i])))
  }

  /** The engine stands behind every message of `n` that is alive, and the disk behind those that were sent. */
  ghost predicate Backed(g: Group, n: NodeId)
    requires n in g.member
  {
    && (forall a :: Alive(g, n, a) ==> Backs(Durable(g.member[n].raft), n, a))
    && (forall p :: p in g.net && p.from == n ==> Backs(g.member[n].disk, n, Addressed(p.to, p.msg)))
  }

  /** Nobody grants two votes in one term, nor one after asking for itself. */
  ghost predicate Single(g: Group, n: NodeId)
    requires n in g.member
  {
    forall a, b {:trigger Alive(g, n, a), Alive(g, n, b)} ::
      Alive(g, n, a) && Alive(g, n, b) && IsGrant(a.msg) && IsBallot(b.msg) && a.msg.term == b.msg.term ==>
        IsGrant(b.msg) && a.to == b.to
  }

  ghost predicate Requested(g: Group, from: NodeId, to: NodeId, term: nat) {
    exists msg :: C.Packet(from, to, msg) in g.net && IsRequest(msg) && msg.term == term
  }

  /** Votes are granted only to those who asked. */
  ghost predicate Asked(g: Group, n: NodeId)
    requires n in g.member
  {
    forall a :: Alive(g, n, a) && IsGrant(a.msg) ==> Requested(g, a.to, n, a.msg.term)
  }

  /** Whoever campaigns or leads has heard of every vote it counts. */
  ghost predicate Elected(g: Group, n: NodeId)
    requires n in g.member
  {
    var s := g.member[n].raft;
    L.InOffice(s) ==> forall v :: v in s.votes && v != n ==> v in s.peers && VotePacket(v, n, s.currentTerm) in g.net
  }

  function VotePacket(v: NodeId, c: NodeId, term: nat): C.Packet {
    C.Packet(v, c, RequestVoteResp(term, true, false))
  }

  ghost predicate Ok(g: Group, n: NodeId)
    requires n in g.member
  {
    && Shape(g.member.Keys, n, g.member[n]) && Ordered(n, g.member[n])
    && Backed(g, n) && Single(g, n) && Asked(g, n) && Elected(g, n)
  }

  ghost predicate Inv(g: Group) {
    && (forall n :: n in g.member ==> Ok(g, n))
    && (forall p :: p in g.net ==> p.from in g.member)
  }

  lemma StartOk(boot: Replicated, g: Group)
    requires Start(boot, g)
    ensures Inv(g)
  {
    forall n | n in g.member ensures Ok(g, n) {
      assert StartsFresh(boot, g.member.Keys, n, g.member[n]);
      FreshOk(boot, g, n);
    }
  }

  lemma FreshOk(boot: Replicated, g: Group, n: NodeId)
    requires n in g.member && g.net == {} && StartsFresh(boot, g.member.Keys, n, g.member[n])
    ensures Ok(g, n)
  {
    hide Timeout;
    var m := g.member[n];
    assert m.waiting == [] && m.writing == None;
    assert Held(m) == {};
  }

  // ---- steps ------------------------------------------------------------

  /** A step of `n`: everyone else is as before, and `n` has sent `sent`. */
  ghost predicate StepOf(g: Group, h: Group, n: NodeId, sent: seq<Addressed>) {
    && n in g.member && h.member.Keys == g.member.Keys
    && (forall m :: m in g.member && m != n ==> h.member[m] == g.member[m])
    && h.net == g.net + C.Packets(n, sent)
  }

  lemma ChangedSteps(g: Group, n: NodeId, m: Member, sent: seq<Addressed>)
    requires n in g.member
    ensures StepOf(g, Changed(g, n, m, sent), n, sent)
  {
  }

  /** The members that did not step. */
  lemma OthersOk(g: Group, h: Group, n: NodeId, sent: seq<Addressed>, k: NodeId)
    requires StepOf(g, h, n, sent) && k in g.member && k != n && Ok(g, k)
    ensures Ok(h, k)
  {
    hide Shape, Ordered, Backs, L.InOffice;
    forall a ensures Alive(h, k, a) <==> Alive(g, k, a) {
      assert C.Packet(k, a.to, a.msg) in h.net <==> C.Packet(k, a.to, a.msg) in g.net;
    }
    forall p | p in h.net && p.from == k ensures p in g.net {
    }
    forall a | Alive(h, k, a) && IsGrant(a.msg) ensures Requested(h, a.to, k, a.msg.term) {
      assert Requested(g, a.to, k, a.msg.term);
    }
    assert Single(h, k);
  }

  /** What is alive after a step of `n` was alive before. */
  ghost predicate NothingNew(g: Group, h: Group, n: NodeId)
    requires n in g.member && n in h.member
  {
    forall a :: Alive(h, n, a) ==> Alive(g, n, a)
  }

  lemma NothingNewOk(g: Group, h: Group, n: NodeId, sent: seq<Addressed>)
    requires StepOf(g, h, n, sent) && Ok(g, n) && NothingNew(g, h, n)
    ensures Single(h, n) && Asked(h, n)
  {
    hide Shape, Ordered, Backed, Elected, Alive;
    assert forall a, b {:trigger Alive(h, n, a), Alive(h, n, b)} :: Alive(h, n, a) && Alive(h, n, b) ==>
        Alive(g, n, a) && Alive(g, n, b);
    forall a | Alive(h, n, a) && IsGrant(a.msg) ensures Requested(h, a.to, n, a.msg.term) {
      assert Requested(g, a.to, n, a.msg.term);
    }
  }

  lemma HeldWaiting(m: Member, k: nat, i: nat)
    requires k < |m.waiting| && i < |m.waiting[k].messages|
    ensures m.waiting[k].messages[i] in Held(m)
  {
  }

  lemma ReadsHeld(m: Member, k: nat, w: Write)
    requires k < |m.waiting| && m.writing.None? && w.ready == m.waiting[k]
    ensures Held(m.(waiting := m.waiting[..k] + m.waiting[k + 1..], writing := Some(w))) <= Held(m)
  {
    var rest := m.waiting[..k] + m.waiting[k + 1..];
    var r := m.(waiting := rest, writing := Some(w));
    forall a | a in Held(r) ensures a in Held(m) {
      if exists j, i :: 0 <= j < |rest| && 0 <= i < |rest[j].messages| && rest[j].messages[i] == a {
        var j, i :| 0 <= j < |rest| && 0 <= i < |rest[j].messages| && rest[j].messages[i] == a;
        assert rest[j] == m.waiting[if j < k then j else j + 1];
      }
    }
  }

  lemma ReadsOk(boot: Replicated, g: Group, n: NodeId, k: nat, h: Group)
    requires Inv(g) && n in g.member && Next(boot, g, Reads(n, k), h)
    ensures n in h.member && StepOf(g, h, n, []) && Ok(h, n)
  {
    hide Shape, Single, Asked, L.Valid, Backs, F.Succeeds, L.ValidPersisted;
    var m := g.member[n];
    var r := h.member[n];
    assert Ok(g, n);
    ChangedSteps(g, n, r, []);
    ReadsHeld(m, k, r.writing.value);
    assert NothingNew(g, h, n);
    NothingNewOk(g, h, n, []);
    DurableValid(g.member.Keys, n, m);
    ShapeKept(g.member.Keys, n, m, r);
    forall i | 0 <= i < |m.waiting[k].messages| ensures Backs(Durable(m.raft), n, m.waiting[k].messages[i]) {
      HeldWaiting(m, k, i);
      assert Alive(g, n, m.waiting[k].messages[i]);
    }
  }

  lemma ShapeKept(ids: set<NodeId>, n: NodeId, m: Member, r: Member)
    requires Shape(ids, n, m) && r.raft == m.raft && L.ValidPersisted(r.disk)
    ensures Shape(ids, n, r)
  {
  }

  lemma DurableValid(ids: set<NodeId>, n: NodeId, m: Member)
    requires Shape(ids, n, m)
    ensures L.ValidPersisted(m.disk) && F.Succeeds(Durable(m.raft), Durable(m.raft))
  {
    F.SucceedsSelf(Durable(m.raft));
  }

  lemma CompletesOk(boot: Replicated, g: Group, n: NodeId, h: Group)
    requires Inv(g) && n in g.member && Next(boot, g, Completes(n), h)
    ensures n in h.member && g.member[n].writing.Some?
    ensures StepOf(g, h, n, g.member[n].writing.value.ready.messages) && Ok(h, n)
  {
    hide Shape, Single, Asked, L.Valid, Backs, L.ValidPersisted;
    var m := g.member[n];
    var r := h.member[n];
    var w := m.writing.value;
    assert Ok(g, n);
    ChangedSteps(g, n, r, w.ready.messages);
    forall a | Alive(h, n, a) ensures Alive(g, n, a) {
      if C.Packet(n, a.to, a.msg) in h.net {
        SentOrBefore(g, h, n, w.ready.messages, C.Packet(n, a.to, a.msg));
      }
    }
    NothingNewOk(g, h, n, w.ready.messages);
    ShapeKept(g.member.Keys, n, m, r);
    forall p | p in h.net && p.from == n ensures Backs(r.disk, n, Addressed(p.to, p.msg)) {
      SentOrBefore(g, h, n, w.ready.messages, p);
      if p in g.net {
        SuccessorBacks(m.disk, w.contents, n, Addressed(p.to, p.msg));
      }
    }
  }

  /** A packet is old, or one of those just sent. */
  lemma SentOrBefore(g: Group, h: Group, n: NodeId, sent: seq<Addressed>, p: C.Packet)
    requires StepOf(g, h, n, sent) && p in h.net
    ensures p in g.net || exists i :: 0 <= i < |sent| && sent[i] == Addressed(p.to, p.msg) && p.from == n
  {
    if p !in g.net {
      var i :| 0 <= i < |sent| && C.Packet(n, sent[i].to, sent[i].msg) == p;
      assert sent[i] == Addressed(p.to, p.msg);
    }
  }

  lemma CompactsOk(boot: Replicated, g: Group, n: NodeId, index: nat, data: Replicated, h: Group)
    requires Inv(g) && n in g.member && Next(boot, g, Compacts(n, index, data), h)
    ensures n in h.member && StepOf(g, h, n, []) && Ok(h, n)
  {
    hide Single, Asked, L.Valid, Backs, L.ValidPersisted, Compact, Shape, F.Succeeds;
    var m := g.member[n];
    var r := h.member[n];
    assert Ok(g, n);
    ChangedSteps(g, n, r, []);
    assert Held(r) == Held(m);
    assert NothingNew(g, h, n);
    NothingNewOk(g, h, n, []);
    CompactShape(g.member.Keys, n, m, index, data);
    forall a | Alive(h, n, a) ensures Backs(Durable(r.raft), n, a) {
      SameHard(Durable(m.raft), Durable(r.raft), n, a);
    }
    forall p | p in h.net && p.from == n ensures Backs(r.disk, n, Addressed(p.to, p.msg)) {
      assert Alive(h, n, Addressed(p.to, p.msg));
    }
  }

  lemma CompactShape(ids: set<NodeId>, n: NodeId, m: Member, index: nat, data: Replicated)
    requires Shape(ids, n, m)
    ensures var s, q := m.raft, Compact(m.raft, index, data);
            && Shape(ids, n, m.(raft := q, disk := Durable(q))) && F.Succeeds(Durable(q), Durable(q))
            && q.currentTerm == s.currentTerm && q.votedFor == s.votedFor && q.role == s.role && q.votes == s.votes
            && q.peers == s.peers
  {
    hide TermAt, L.Valid;
    C.CompactValid(m.raft, index, data);
    ValidDurable(Compact(m.raft, index, data));
    F.SucceedsSelf(Durable(Compact(m.raft, index, data)));
  }

  lemma ValidDurable(s: State)
    requires L.Valid(s)
    ensures L.ValidPersisted(Durable(s))
  {
  }

  lemma SameHard(p: Persisted, q: Persisted, n: NodeId, a: Addressed)
    requires p.currentTerm == q.currentTerm && p.votedFor == q.votedFor
    ensures Backs(p, n, a) ==> Backs(q, n, a)
  {
  }

  lemma CrashesOk(boot: Replicated, g: Group, n: NodeId, found: Persisted, draws: nat -> nat, h: Group)
    requires Inv(g) && n in g.member && Next(boot, g, Crashes(n, found, draws), h)
    ensures n in h.member && StepOf(g, h, n, []) && Ok(h, n)
  {
    hide Single, Asked, Backs, Reborn, L.ValidPersisted, Shape, F.Succeeds;
    var m := g.member[n];
    var r := h.member[n];
    assert Ok(g, n);
    RestartShape(boot, g.member.Keys, n, m, found, draws);
    ChangedSteps(g, n, r, []);
    assert Held(r) == {};
    assert NothingNew(g, h, n);
    NothingNewOk(g, h, n, []);
    forall p | p in g.net && p.from == n ensures Backs(found, n, Addressed(p.to, p.msg)) {
      FoundBacks(n, m, found, Addressed(p.to, p.msg));
    }
    forall a | Alive(h, n, a) ensures Backs(Durable(r.raft), n, a) {
      assert C.Packet(n, a.to, a.msg) in g.net;
      assert Addressed(a.to, a.msg) == a;
    }
  }

  lemma RestartShape(boot: Replicated, ids: set<NodeId>, n: NodeId, m: Member, found: Persisted, draws: nat -> nat)
    requires Shape(ids, n, m) && L.ValidPersisted(found)
    ensures var r := Reborn(boot, n, m, found, draws);
            && Shape(ids, n, r) && Durable(r.raft) == found && !L.InOffice(r.raft) && F.Succeeds(found, found)
            && r.waiting == [] && r.writing == None && r.disk == found
  {
    hide Timeout, L.ValidPersisted;
    F.SucceedsSelf(found);
  }

  /** Whatever is found stands behind what was sent. */
  lemma FoundBacks(n: NodeId, m: Member, found: Persisted, a: Addressed)
    requires Ordered(n, m) && MayFind(m, found) && Backs(m.disk, n, a)
    ensures Backs(found, n, a)
  {
    hide L.ValidPersisted;
  }

  // ---- a call -----------------------------------------------------------

  /** Facts about a call of `n` and what it hands out. */
  ghost predicate Call(g: Group, n: NodeId, event: C.Event) {
    && n in g.member && C.Actor(event) == n
    && (event.Ticks? || event.Proposes? || (event.Receives? && event.packet in g.net))
  }

  lemma CallShape(g: Group, n: NodeId, event: C.Event)
    requires Call(g, n, event) && Ok(g, n)
    ensures var s, q := g.member[n].raft, C.Called(g.member[n].raft, event);
            && Cast(s, q, CauseOf(event)) && L.Valid(q) && F.Succeeds(Durable(s), Durable(q)) && n !in s.peers
            && Shape(g.member.Keys, n, g.member[n].(raft := TakeReady(q).1))
  {
    hide C.Called, L.Valid, Cast, Entitled;
    var s := g.member[n].raft;
    CallCasts(s, event);
    CastParts(s, C.Called(s, event), CauseOf(event));
    C.CalledSound(s, event);
    F.SoundSucceeds(s, C.Called(s, event));
    TakenKeeps(C.Called(s, event));
  }

  lemma TakenKeeps(q: State)
    ensures var r := TakeReady(q).1;
            && (L.Valid(q) ==> L.Valid(r)) && (Entitled(q) ==> Entitled(r)) && r.out == [] && r.id == q.id
               && r.peers == q.peers
  {
  }

  /** Whatever `n` holds or has sent after a call, it did before or the call handed it out. */
  lemma BegunAlive(boot: Replicated, g: Group, n: NodeId, event: C.Event, h: Group, a: Addressed)
    requires Call(g, n, event) && Next(boot, g, Begins(event), h) && n in h.member && Alive(h, n, a)
    ensures Alive(g, n, a) || a in C.Called(g.member[n].raft, event).out
  {
    hide C.Called;
    var m := g.member[n];
    var r := h.member[n];
    var ready := TakeReady(C.Called(m.raft, event)).0;
    if a in Held(r) && a !in Held(m) {
      HeldPush(m, r, ready, a);
    } else if C.Packet(n, a.to, a.msg) in h.net {
      ChangedSteps(g, n, r, Begun(m, event).1);
      SentOrBefore(g, h, n, Begun(m, event).1, C.Packet(n, a.to, a.msg));
    }
  }

  lemma HeldPush(m: Member, r: Member, ready: Ready, a: Addressed)
    requires r.writing == m.writing && (r.waiting == m.waiting || r.waiting == m.waiting + [ready])
    requires a in Held(r) && a !in Held(m)
    ensures a in ready.messages
  {
    var k, i :| 0 <= k < |r.waiting| && 0 <= i < |r.waiting[k].messages| && r.waiting[k].messages[i] == a;
    if k < |m.waiting| {
      HeldWaiting(m, k, i);
    }
  }

  /** A ballot a call hands out. */
  lemma FreshBallot(s: State, q: State, c: Cause, a: Addressed)
    requires Cast(s, q, c) && s.out == [] && a in q.out && IsBallot(a.msg)
    ensures Justified(s, q, a, c)
  {
  }

  /** A fresh ballot against one that was alive before: they do not clash. */
  lemma FreshAgainstOld(n: NodeId, s: State, q: State, c: Cause, a: Addressed, b: Addressed)
    requires s.id == n && q.id == n && n !in s.peers && Justified(s, q, a, c) && IsBallot(a.msg) && IsBallot(b.msg)
    requires Backs(Durable(s), n, b) && a.msg.term == b.msg.term
    ensures IsGrant(a.msg) && IsGrant(b.msg) && a.to == b.to
  {
  }

  /** Two ballots of one call. */
  lemma FreshAgainstFresh(n: NodeId, s: State, q: State, c: Cause, a: Addressed, b: Addressed)
    requires s.id == n && q.id == n && n !in s.peers && Justified(s, q, a, c) && Justified(s, q, b, c)
    requires IsGrant(a.msg) && IsBallot(b.msg)
    ensures IsGrant(b.msg) && a.to == b.to
  {
  }

  lemma BeginsSingle(boot: Replicated, g: Group, n: NodeId, event: C.Event, h: Group)
    requires Call(g, n, event) && Ok(g, n) && Next(boot, g, Begins(event), h) && n in h.member
    ensures Single(h, n)
  {
    CallShape(g, n, event);
    var s := g.member[n].raft;
    var q := C.Called(s, event);
    var c := CauseOf(event);
    hide Shape, Ordered, Elected, Asked, Cast, C.Called, Next, Justified, Backs, Alive;
    forall a, b {:trigger Alive(h, n, a), Alive(h, n, b)} | Alive(h, n, a) && Alive(h, n, b) && IsGrant(a.msg)
      && IsBallot(b.msg)
        && a.msg.term == b.msg.term
      ensures IsGrant(b.msg) && a.to == b.to
    {
      BegunAlive(boot, g, n, event, h, a);
      BegunAlive(boot, g, n, event, h, b);
      NameOf(g, n, q, event);
      if a in q.out { FreshBallot(s, q, c, a); }
      if b in q.out { FreshBallot(s, q, c, b); }
      if a in q.out && b in q.out {
        FreshAgainstFresh(n, s, q, c, a, b);
      } else if a in q.out {
        FreshAgainstOld(n, s, q, c, a, b);
      } else if b in q.out {
        FreshAgainstOld(n, s, q, c, b, a);
      }
    }
  }

  lemma NameOf(g: Group, n: NodeId, q: State, event: C.Event)
    requires n in g.member && Shape(g.member.Keys, n, g.member[n]) && Cast(g.member[n].raft, q, CauseOf(event))
    ensures g.member[n].raft.id == n && q.id == n && g.member[n].raft.out == []
  {
  }

  /** What a call hands out rests on its own state; if it asks for no save, there is no ballot in it. */
  lemma FreshBacked(n: NodeId, s: State, q: State, c: Cause, a: Addressed)
    requires Cast(s, q, c) && s.out == [] && s.id == n && a in q.out
    ensures Backs(Durable(q), n, a) && (!q.dirty ==> !IsBallot(a.msg))
  {
    if IsBallot(a.msg) {
      FreshBallot(s, q, c, a);
    }
  }

  lemma BeginsBacked(boot: Replicated, g: Group, n: NodeId, event: C.Event, h: Group)
    requires Call(g, n, event) && Ok(g, n) && Next(boot, g, Begins(event), h) && n in h.member
    ensures Backed(h, n)
  {
    hide Call, Ok, Next, Alive, Backs;
    forall a | Alive(h, n, a) ensures Backs(Durable(h.member[n].raft), n, a) {
      BegunAliveBacked(boot, g, n, event, h, a);
    }
    forall p | p in h.net && p.from == n ensures Backs(h.member[n].disk, n, Addressed(p.to, p.msg)) {
      BegunSentBacked(boot, g, n, event, h, p);
    }
  }

  lemma BegunAliveBacked(boot: Replicated, g: Group, n: NodeId, event: C.Event, h: Group, a: Addressed)
    requires Call(g, n, event) && Ok(g, n) && Next(boot, g, Begins(event), h) && n in h.member && Alive(h, n, a)
    ensures Backs(Durable(h.member[n].raft), n, a)
  {
    CallShape(g, n, event);
    var s := g.member[n].raft;
    var q := C.Called(s, event);
    NameOf(g, n, q, event);
    hide Shape, Ordered, Elected, Asked, Single, Cast, C.Called, Backs, Alive;
    assert Durable(h.member[n].raft) == Durable(q);
    BegunAlive(boot, g, n, event, h, a);
    if a in q.out {
      FreshBacked(n, s, q, CauseOf(event), a);
    } else {
      SuccessorBacks(Durable(s), Durable(q), n, a);
    }
  }

  lemma BegunSentBacked(boot: Replicated, g: Group, n: NodeId, event: C.Event, h: Group, p: C.Packet)
    requires Call(g, n, event) && Ok(g, n) && Next(boot, g, Begins(event), h) && n in h.member
    requires p in h.net && p.from == n
    ensures Backs(h.member[n].disk, n, Addressed(p.to, p.msg))
  {
    CallShape(g, n, event);
    var s := g.member[n].raft;
    var q := C.Called(s, event);
    NameOf(g, n, q, event);
    hide Shape, Ordered, Elected, Asked, Single, Cast, C.Called, Backs, Alive;
    var r := h.member[n];
    var sent := Begun(g.member[n], event).1;
    ChangedSteps(g, n, r, sent);
    SentOrBefore(g, h, n, sent, p);
    if p !in g.net {
      var i :| 0 <= i < |sent| && sent[i] == Addressed(p.to, p.msg);
      FreshBacked(n, s, q, CauseOf(event), sent[i]);
      NotABallot(r.disk, n, sent[i]);
    }
  }

  lemma NotABallot(p: Persisted, n: NodeId, a: Addressed)
    requires !IsBallot(a.msg)
    ensures Backs(p, n, a)
  {
  }

  lemma BeginsAsked(boot: Replicated, g: Group, n: NodeId, event: C.Event, h: Group)
    requires Call(g, n, event) && Ok(g, n) && Next(boot, g, Begins(event), h) && n in h.member
    ensures Asked(h, n)
  {
    CallShape(g, n, event);
    var s := g.member[n].raft;
    var q := C.Called(s, event);
    NameOf(g, n, q, event);
    hide Shape, Ordered, Elected, Single, Cast, C.Called, Backed, Alive;
    ChangedSteps(g, n, h.member[n], Begun(g.member[n], event).1);
    forall a | Alive(h, n, a) && IsGrant(a.msg) ensures Requested(h, a.to, n, a.msg.term) {
      BegunAlive(boot, g, n, event, h, a);
      if a in q.out {
        FreshBallot(s, q, CauseOf(event), a);
        assert C.Packet(a.to, n, event.packet.msg) == event.packet && event.packet in h.net;
      } else {
        assert Requested(g, a.to, n, a.msg.term);
      }
    }
  }

  lemma BeginsElected(boot: Replicated, g: Group, n: NodeId, event: C.Event, h: Group)
    requires Call(g, n, event) && Ok(g, n) && Next(boot, g, Begins(event), h) && n in h.member
    ensures Elected(h, n)
  {
    CallShape(g, n, event);
    var s := g.member[n].raft;
    var q := C.Called(s, event);
    var c := CauseOf(event);
    NameOf(g, n, q, event);
    CastParts(s, q, c);
    hide Shape, Ordered, Single, Cast, C.Called, Backed, Alive, Asked;
    var r := h.member[n].raft;
    ChangedSteps(g, n, h.member[n], Begun(g.member[n], event).1);
    assert r.role == q.role && r.votes == q.votes && r.currentTerm == q.currentTerm && r.peers == q.peers;
    if L.InOffice(r) {
      forall v | v in r.votes && v != n ensures v in r.peers && VotePacket(v, n, r.currentTerm) in h.net {
        assert Counts(s, q, v, c);
      }
    }
  }

  lemma BeginsOk(boot: Replicated, g: Group, n: NodeId, event: C.Event, h: Group)
    requires Inv(g) && Call(g, n, event) && Next(boot, g, Begins(event), h)
    ensures n in h.member && StepOf(g, h, n, Begun(g.member[n], event).1) && Ok(h, n)
  {
    hide Backed, Single, Asked, Elected, C.Called, L.Valid, Entitled, F.Succeeds, Ordered, L.ValidPersisted, Cast;
    assert Ok(g, n);
    ChangedSteps(g, n, h.member[n], Begun(g.member[n], event).1);
    CallShape(g, n, event);
    BeginsBacked(boot, g, n, event, h);
    BeginsSingle(boot, g, n, event, h);
    BeginsAsked(boot, g, n, event, h);
    BeginsElected(boot, g, n, event, h);
    BeginsOrdered(boot, g, n, event, h);
  }

  lemma BeginsOrdered(boot: Replicated, g: Group, n: NodeId, event: C.Event, h: Group)
    requires Call(g, n, event) && Ok(g, n) && Next(boot, g, Begins(event), h) && n in h.member
    requires F.Succeeds(Durable(g.member[n].raft), Durable(C.Called(g.member[n].raft, event)))
    ensures Ordered(n, h.member[n])
  {
    hide Shape, Backed, Single, Asked, Elected, C.Called, Backs, L.ValidPersisted;
    hide F.Succeeds;
    var m := g.member[n];
    var q := Durable(C.Called(m.raft, event));
    assert Durable(h.member[n].raft) == q;
    F.SucceedsTransitive(m.disk, Durable(m.raft), q);
    if m.writing.Some? {
      F.SucceedsTransitive(m.writing.value.contents, Durable(m.raft), q);
    }
  }

  // ---- runs -------------------------------------------------------------

  lemma NextOk(boot: Replicated, g: Group, e: Event, h: Group)
    requires Inv(g) && Next(boot, g, e, h)
    ensures Inv(h) && g.net <= h.net && h.member.Keys == g.member.Keys
  {
    hide Ok, Next;
    var n := Actor(e);
    var sent := ActorOk(boot, g, e, h);
    forall k | k in h.member ensures Ok(h, k) {
      if k != n {
        OthersOk(g, h, n, sent, k);
      }
    }
    forall p | p in h.net ensures p.from in h.member {
      SentOrBefore(g, h, n, sent, p);
    }
  }

  lemma ActorOk(boot: Replicated, g: Group, e: Event, h: Group) returns (sent: seq<Addressed>)
    requires Inv(g) && Next(boot, g, e, h)
    ensures StepOf(g, h, Actor(e), sent) && Ok(h, Actor(e))
  {
    hide Ok, StepOf, Begun;
    match e {
      case Begins(event) =>
        sent := Begun(g.member[Actor(e)], event).1;
        BeginsOk(boot, g, Actor(e), event, h);
      case Reads(n, k) =>
        sent := [];
        ReadsOk(boot, g, n, k, h);
      case Completes(n) =>
        sent := g.member[n].writing.value.ready.messages;
        CompletesOk(boot, g, n, h);
      case Compacts(n, index, data) =>
        sent := [];
        CompactsOk(boot, g, n, index, data, h);
      case Crashes(n, found, draws) =>
        sent := [];
        CrashesOk(boot, g, n, found, draws, h);
    }
  }

  lemma {:induction false} RunOk(boot: Replicated, b: seq<Group>, ev: seq<Event>, i: nat, j: nat)
    requires Run(boot, b, ev) && i <= j < |b|
    ensures Inv(b[i]) && Inv(b[j]) && b[i].net <= b[j].net && b[j].member.Keys == b[i].member.Keys
    decreases j
  {
    hide Next, Inv, Start;
    if j == 0 {
      StartOk(boot, b[0]);
    } else {
      RunOk(boot, b, ev, if i == j then i - 1 else i, j - 1);
      NextOk(boot, b[j - 1], ev[j - 1], b[j]);
    }
  }

  /**
   * Every crash point of every save is covered: at every moment of a run, what opening
   * returns after the save under way is cut short at any stage, unless it refuses, is
   * something a crash of the model may leave.
   */
  lemma CrashPointsCovered(boot: Replicated, b: seq<Group>, ev: seq<Event>, i: nat, n: NodeId, stage: R.Stage)
    requires Run(boot, b, ev) && i < |b| && n in b[i].member && b[i].member[n].writing.Some?
    requires !F.Refuses(b[i].member[n].disk, b[i].member[n].writing.value.contents, stage)
    ensures MayFind(b[i].member[n], F.Interrupted(b[i].member[n].disk, b[i].member[n].writing.value.contents, stage))
  {
    hide Run, MayFind, F.Refuses, F.Interrupted, Shape, Backed, Single, Asked, Elected;
    RunOk(boot, b, ev, i, i);
    assert Ok(b[i], n);
    InterruptedFound(b[i].member[n], b[i].member[n].writing.value, stage);
  }

  /** Everyone whose vote a leader counted, seen from a later moment. */
  lemma VotesStand(g: Group, h: Group, n: NodeId)
    requires Inv(g) && Inv(h) && g.net <= h.net && h.member.Keys == g.member.Keys
    requires n in g.member && g.member[n].raft.role == Leader
    ensures var s := g.member[n].raft;
            && P.Quorum(g.member.Keys, s.votes)
            && (forall v :: v in s.votes && v != n ==> VotePacket(v, n, s.currentTerm) in h.net)
            && (s.votes != {n} ==> exists to :: Requested(h, n, to, s.currentTerm))
  {
    hide Shape, Ordered, Backed, Single, Asked, Entitled;
    assert Ok(g, n);
    var s := g.member[n].raft;
    VotersAreMembers(g, n);
    if s.votes != {n} {
      var v :| v in s.votes && v != n;
      GrantedWasAsked(h, v, n, s.currentTerm);
    }
  }

  lemma GrantedWasAsked(h: Group, v: NodeId, n: NodeId, t: nat)
    requires Inv(h) && VotePacket(v, n, t) in h.net
    ensures Requested(h, n, v, t)
  {
    hide Shape, Ordered, Backed, Single, Elected;
    assert v in h.member && Ok(h, v);
    var a := Addressed(n, RequestVoteResp(t, true, false));
    assert Alive(h, v, a) && IsGrant(a.msg);
  }

  lemma VotersAreMembers(g: Group, n: NodeId)
    requires n in g.member && Ok(g, n) && g.member[n].raft.role == Leader
    ensures P.Quorum(g.member.Keys, g.member[n].raft.votes) && n in g.member[n].raft.votes
  {
    hide L.Valid, Backed, Single, Asked;
    var s := g.member[n].raft;
    GroupCount(s, g.member.Keys);
    assert s.votes <= g.member.Keys;
  }

  lemma GroupCount(s: State, ids: set<NodeId>)
    requires Distinct(s.peers) && s.id in ids && forall p :: p in s.peers <==> p in ids && p != s.id
    ensures |ids| == |s.peers| + 1
  {
    Listed(s.peers);
    var others := set p | p in s.peers;
    assert ids == others + {s.id};
  }

  lemma {:induction false} Listed(ps: seq<NodeId>)
    requires Distinct(ps)
    ensures |set p | p in ps| == |ps|
  {
    if ps != [] {
      var k := |ps| - 1;
      Listed(ps[..k]);
      assert (set p | p in ps) == (set p | p in ps[..k]) + {ps[k]};
    }
  }

  /**
   * Election safety survives overlapping drains and crashes: over every run in which
   * calls, saves, sends, compactions and crashes interleave freely, two members that
   * lead the same term at any two moments are the same member.
   */
  lemma ElectionSafety(boot: Replicated, b: seq<Group>, ev: seq<Event>, i: nat, n: NodeId, j: nat, m: NodeId)
    requires Run(boot, b, ev) && i < |b| && j < |b| && n in b[i].member && m in b[j].member
    requires b[i].member[n].raft.role == Leader && b[j].member[m].raft.role == Leader
    requires b[i].member[n].raft.currentTerm == b[j].member[m].raft.currentTerm
    ensures n == m
  {
    hide Run, Inv;
    var z := if i < j then j else i;
    RunOk(boot, b, ev, i, z);
    RunOk(boot, b, ev, j, z);
    VotesStand(b[i], b[z], n);
    VotesStand(b[j], b[z], m);
    OneWinner(b[z], n, b[i].member[n].raft.votes, m, b[j].member[m].raft.votes, b[i].member[n].raft.currentTerm);
  }

  /** Two quorums of votes in one term are for the same member. */
  lemma OneWinner(h: Group, n: NodeId, q: set<NodeId>, m: NodeId, r: set<NodeId>, t: nat)
    requires Inv(h) && n in h.member && m in h.member
    requires P.Quorum(h.member.Keys, q) && P.Quorum(h.member.Keys, r)
    requires forall v :: v in q && v != n ==> VotePacket(v, n, t) in h.net
    requires forall v :: v in r && v != m ==> VotePacket(v, m, t) in h.net
    requires q != {n} ==> exists to :: Requested(h, n, to, t)
    requires r != {m} ==> exists to :: Requested(h, m, to, t)
    ensures n == m
  {
    var v := P.QuorumsMeet(h.member.Keys, q, r);
    if v != n && v != m {
      BothGranted(h, v, n, m, t);
    } else if v == n && n != m {
      assert r != {m};
      if q != {n} {
        var to :| Requested(h, n, to, t);
        var msg :| C.Packet(n, to, msg) in h.net && IsRequest(msg) && msg.term == t;
        SingleBallot(h, n, to, msg, m);
      } else {
        LoneQuorum(h.member.Keys, n, m, r);
      }
    } else if v == m && n != m {
      assert q != {n};
      if r != {m} {
        var to :| Requested(h, m, to, t);
        var msg :| C.Packet(m, to, msg) in h.net && IsRequest(msg) && msg.term == t;
        SingleBallot(h, m, to, msg, n);
      } else {
        LoneQuorum(h.member.Keys, m, n, q);
      }
    }
  }

  /** A quorum of one means a group of one. */
  lemma LoneQuorum(ids: set<NodeId>, n: NodeId, m: NodeId, r: set<NodeId>)
    requires P.Quorum(ids, {n}) && m in ids && n in ids
    ensures n == m
  {
    if n != m {
      SubsetSize({n, m}, ids);
    }
  }

  lemma BothGranted(h: Group, v: NodeId, n: NodeId, m: NodeId, t: nat)
    requires Inv(h) && VotePacket(v, n, t) in h.net && VotePacket(v, m, t) in h.net
    ensures n == m
  {
    assert v in h.member && Ok(h, v);
    var resp := RequestVoteResp(t, true, false);
    assert Alive(h, v, Addressed(n, resp)) && Alive(h, v, Addressed(m, resp));
  }

  /** Nobody asks for itself and votes for another in the same term. */
  lemma SingleBallot(h: Group, n: NodeId, to: NodeId, msg: Message, m: NodeId)
    requires Inv(h) && C.Packet(n, to, msg) in h.net && IsBallot(msg) && VotePacket(n, m, msg.term) in h.net
    ensures IsGrant(msg) && to == m
  {
    hide Shape, Ordered, Backed, Asked, Elected;
    assert n in h.member && Ok(h, n);
    var a := Addressed(m, RequestVoteResp(msg.term, true, false));
    assert Alive(h, n, a) && Alive(h, n, Addressed(to, msg)) && IsGrant(a.msg);
  }
}
