/**
 * A leader that a quorum trusts is not disrupted: over every run of the group, whoever
 * opens an election while a quorum trusts its leader throughout does so on a pre-vote
 * that one of that quorum granted before.
 */
module RaftDisruption {
  import opened Model
  import opened RaftSpec
  import opened RaftCluster
  import opened RaftTrust
  import E = RaftElections
  import G = RaftProgress
  import P = Protocol
  import T = RaftRetries

  predicate IsPreGrant(m: Message) { m.RequestVoteResp? && m.granted && m.preVote }

  function PreGrant(v: NodeId, n: NodeId, term: nat): Packet { Packet(v, n, RequestVoteResp(term, true, true)) }

  // ---- calls that have nothing to do with votes -------------------------

  predicate NoAnswers(was: seq<Addressed>, now: seq<Addressed>) {
    was <= now && forall k :: |was| <= k < |now| ==> !now[k].msg.RequestVoteResp?
  }

  /** No vote is answered, nobody is counted, and a later term comes without a vote. */
  ghost predicate Still(s: State, r: State) {
    && r.id == s.id && r.peers == s.peers && NoAnswers(s.out, r.out) && s.currentTerm <= r.currentTerm
    && (r.role == PreCandidate ==> s.role == PreCandidate && r.votes == s.votes)
    && (r.currentTerm > s.currentTerm ==> r.votedFor.None?)
  }

  /** The same member, as far as votes go. */
  predicate Same(s: State, r: State) {
    && r.id == s.id && r.peers == s.peers && r.currentTerm == s.currentTerm && r.votedFor == s.votedFor
    && r.role == s.role && r.votes == s.votes && NoAnswers(s.out, r.out)
  }

  lemma SameTransitive(s: State, r: State, q: State)
    requires Same(s, r) && Same(r, q)
    ensures Same(s, q)
  {
  }

  lemma FollowerStill(s: State, term: nat, leader: Option<NodeId>)
    ensures var r := BecomeFollower(s, term, leader);
            && Still(s, r) && r.role == Follower && r.currentTerm == Max(s.currentTerm, term)
            && (term <= s.currentTerm ==> r.votedFor == s.votedFor)
  {
    hide Timeout;
  }

  lemma SendAppendSame(s: State, p: NodeId)
    ensures Same(s, SendAppend(s, p))
  {
    hide TermAt, EntriesFrom;
  }

  lemma {:induction false} SendAppendsSame(s: State, ps: seq<NodeId>)
    ensures Same(s, SendAppends(s, ps))
  {
    hide SendAppend, Same;
    if ps == [] {
      Itself(s);
    } else {
      SendAppendsSame(s, ps[..|ps| - 1]);
      SendAppendSame(SendAppends(s, ps[..|ps| - 1]), ps[|ps| - 1]);
      SameTransitive(s, SendAppends(s, ps[..|ps| - 1]), SendAppends(s, ps));
    }
  }

  lemma Itself(s: State)
    ensures Same(s, s)
  {
  }

  lemma LeaderTickStill(s: State)
    requires s.role == Leader
    ensures Still(s, Tick(s))
  {
    hide SendAppends, CheckQuorum;
    var a := s.(heartbeatElapsed := 0);
    SendAppendsSame(a, a.peers);
    CheckStill(s, Heartbeat(s));
  }

  lemma CheckStill(s: State, a: State)
    requires Same(s, a)
    ensures Still(s, CheckQuorum(a))
  {
    hide Timeout, BecomeFollower;
    FollowerStill(a.(electionElapsed := a.electionElapsed + 1, ackedSinceCheck := {}), a.currentTerm, None);
  }

  lemma AcceptAppendSame(s: State, from: NodeId, req: Message)
    requires req.AppendEntries?
    ensures Same(s, AcceptAppend(s, from, req))
  {
    hide Splice, TermAt;
    G.AcceptAppendFrame(s, from, req);
    G.SpliceFrame(s, req.entries, req.prevLogIndex);
  }

  lemma AppendStill(s: State, from: NodeId, req: Message)
    requires req.AppendEntries?
    ensures Still(s, HandleAppend(s, from, req))
  {
    hide AcceptAppend, EntriesAreContiguous, BecomeFollower;
    FollowerStill(s, req.term, None);
    var a := Adopt(s, req.term);
    FollowerStill(a, req.term, Some(from));
    AcceptAppendSame(BecomeFollower(a, req.term, Some(from)), from, req);
  }

  lemma AcceptSnapshotSame(s: State, from: NodeId, req: Message)
    requires req.InstallSnapshot?
    ensures Same(s, AcceptSnapshot(s, from, req))
  {
    hide TermAt;
  }

  lemma SnapshotStill(s: State, from: NodeId, req: Message)
    requires req.InstallSnapshot?
    ensures Still(s, HandleInstallSnapshot(s, from, req))
  {
    hide AcceptSnapshot, SnapshotMetadataIsValid, BecomeFollower;
    FollowerStill(s, req.term, None);
    var a := Adopt(s, req.term);
    FollowerStill(a, req.term, Some(from));
    AcceptSnapshotSame(BecomeFollower(a, req.term, Some(from)), from, req);
  }

  lemma AdvanceSame(s: State)
    ensures Same(s, MaybeAdvanceCommit(s)) && Same(s, BroadcastAppend(MaybeAdvanceCommit(s)))
  {
    hide HighestCommittable, SendAppends;
    SendAppendsSame(MaybeAdvanceCommit(s), s.peers);
  }

  lemma MatchSame(s: State, from: NodeId, acknowledged: nat)
    ensures Same(s, RecordMatch(s, from, acknowledged))
  {
    hide MaybeAdvanceCommit, BroadcastAppend;
    var matched := Max(acknowledged, Get(s.matchIndex, from, 0));
    AdvanceSame(s.(matchIndex := s.matchIndex[from := matched], nextIndex := s.nextIndex[from := matched + 1]));
  }

  lemma RewindSame(s: State, from: NodeId, hint: nat)
    ensures Same(s, Rewind(s, from, hint))
  {
    hide SendAppend;
    var previous := Get(s.nextIndex, from, 1);
    var next := Min(hint + 1, Max(Minus(previous, 1), 1));
    SendAppendSame(s.(nextIndex := s.nextIndex[from := Min(next, previous)]), from);
  }

  lemma ReplyStill(s: State, from: NodeId, msg: Message)
    requires msg.AppendEntriesResp? || msg.InstallSnapshotResp?
    ensures Still(s, Step(s, from, msg))
  {
    hide RecordMatch, Rewind, BecomeFollower;
    FollowerStill(s, msg.term, None);
    var a := s.(ackedSinceCheck := s.ackedSinceCheck + {from});
    if msg.AppendEntriesResp? {
      MatchSame(a, from, Min(msg.matchIndex, LastIndex(a)));
      RewindSame(a, from, msg.matchIndex);
    } else {
      MatchSame(a.(snapshotInflight := a.snapshotInflight - {from}), from,
                Min(msg.lastIncludedIndex, Get(a.snapshotInflight, from, 0)));
    }
  }

  lemma ProposeStill(s: State, command: Command)
    ensures Still(s, Propose(s, command))
  {
    hide MaybeAdvanceCommit, BroadcastAppend;
    AdvanceSame(s.(log := s.log + [Entry(s.currentTerm, LastIndex(s) + 1, Some(command))], dirty := true));
  }

  // ---- calls that have --------------------------------------------------

  /** The event delivers a granted pre-vote of peer `v`. */
  predicate Brings(s: State, e: Event, v: NodeId) {
    e.Receives? && e.packet.from == v && v in s.peers && IsPreGrant(e.packet.msg)
  }

  /** What a call does about pre-votes: whom it counts, when it opens an election, and whom it grants one. */
  ghost predicate Orderly(s: State, e: Event, q: State) {
    && q.id == s.id && q.peers == s.peers && s.out <= q.out
    && (q.role == PreCandidate ==>
          forall v :: v in q.votes && v != s.id ==> s.role == PreCandidate && (v in s.votes || Brings(s, e, v)))
    && (q.currentTerm > s.currentTerm && q.votedFor == Some(s.id) && s.peers != [] ==>
          && s.role == PreCandidate && e.Receives? && Brings(s, e, e.packet.from)
          && |s.votes + {e.packet.from}| >= Quorum(s))
    && (forall k :: |s.out| <= k < |q.out| && IsPreGrant(q.out[k].msg) ==> !Trusts(s))
  }

  lemma StillOrderly(s: State, e: Event, q: State)
    requires Still(s, q)
    ensures Orderly(s, e, q)
  {
  }

  /** Opening an election: a new term, one's own vote, and requests. */
  lemma ElectionOpens(s: State)
    ensures var r := StartElection(s);
            && r.id == s.id && r.peers == s.peers && NoAnswers(s.out, r.out) && r.role != PreCandidate
            && r.currentTerm == s.currentTerm + 1
  {
    hide SendAll, SendAppends, Timeout, AllAt;
    var a := Campaigning(s);
    var msg := RequestVote(a.currentTerm, a.id, LastIndex(a), LastTerm(a), false);
    SendAllNoAnswers(a, a.peers, msg);
    var b := SendAll(a, a.peers, msg);
    var c := ResetTimer(TakeOffice(b));
    SendAppendsSame(c, c.peers);
  }

  lemma {:induction false} SendAllNoAnswers(s: State, ps: seq<NodeId>, msg: Message)
    requires !msg.RequestVoteResp?
    ensures NoAnswers(s.out, SendAll(s, ps, msg).out)
  {
    if ps != [] {
      SendAllNoAnswers(s, ps[..|ps| - 1], msg);
    }
  }

  lemma WaitOrderly(s: State, e: Event)
    requires s.role != Leader
    ensures Orderly(s, e, Tick(s))
  {
    hide StartPreElection, Orderly;
    var a := s.(electionElapsed := s.electionElapsed + 1);
    if a.electionElapsed >= a.electionTimeout {
      PreElectionOrderly(s, e, a);
    } else {
      WaitingStill(s, a);
      StillOrderly(s, e, a);
    }
  }

  lemma WaitingStill(s: State, a: State)
    requires a == s.(electionElapsed := a.electionElapsed)
    ensures Still(s, a)
  {
  }

  lemma PreElectionOrderly(s: State, e: Event, a: State)
    requires a == s.(electionElapsed := a.electionElapsed)
    ensures Orderly(s, e, StartPreElection(a))
  {
    hide SendAll, StartElection, Timeout;
    var b := ResetTimer(a).(role := PreCandidate, votes := {s.id});
    var msg := RequestVote(b.currentTerm + 1, b.id, LastIndex(b), LastTerm(b), true);
    var c := SendAll(b, b.peers, msg);
    SendAllNoAnswers(b, b.peers, msg);
    ElectionOpens(c);
    assert |{s.id}| == 1;
    assert StartPreElection(a) == MaybeWinPreElection(c);
    hide StartPreElection;
  }

  lemma VoteRespOrderly(s: State, e: Event)
    requires e.Receives? && e.packet.msg.RequestVoteResp? && e.packet.from in s.peers
    ensures Orderly(s, e, HandleVoteResp(s, e.packet.from, e.packet.msg))
  {
    hide StartElection, MaybeWinElection, BecomeFollower;
    var from, resp := e.packet.from, e.packet.msg;
    var a := s.(votes := s.votes + {from});
    FollowerStill(s, resp.term, None);
    ElectionOpens(a);
    WinSame(a);
  }

  /** Winning an election moves neither term nor vote. */
  lemma WinSame(s: State)
    requires s.role == Candidate || s.role == PreCandidate || s.role == Follower || s.role == Leader
    ensures var r := MaybeWinElection(s);
            && r.id == s.id && r.peers == s.peers && NoAnswers(s.out, r.out) && r.currentTerm == s.currentTerm
            && (r.role == s.role || r.role == Leader)
  {
    hide SendAppends, Timeout, AllAt;
    var c := ResetTimer(TakeOffice(s));
    SendAppendsSame(c, c.peers);
  }

  lemma VoteOrderly(s: State, e: Event)
    requires e.Receives? && Asks(s, e.packet.from, e.packet.msg) && s.id !in s.peers
    ensures Orderly(s, e, Step(s, e.packet.from, e.packet.msg))
  {
    hide UpToDate, Step;
    var from, req := e.packet.from, e.packet.msg;
    if req.preVote {
      PreVoteExactly(s, from, req);
    } else {
      VoteExactly(s, from, req);
      VoterRole(s, from, req);
    }
  }

  lemma VoterRole(s: State, from: NodeId, req: Message)
    requires Asks(s, from, req) && !req.preVote
    ensures var r := Step(s, from, req);
            && r.id == s.id && r.peers == s.peers
            && (r.role == PreCandidate ==> s.role == PreCandidate && r.votes == s.votes)
  {
    hide BecomeFollower, AnswerVote;
    FollowerStill(s, req.term, None);
    T.AnswerVoteFrame(Adopt(s, req.term), from, req);
  }

  lemma StepOrderly(s: State, e: Event)
    requires e.Receives? && s.id !in s.peers
    ensures Orderly(s, e, Step(s, e.packet.from, e.packet.msg))
  {
    hide Orderly, Still, HandleRequestVote, HandleVoteResp, HandleAppend, HandleAppendResp, HandleInstallSnapshot,
         HandleInstallSnapshotResp;
    var from, msg := e.packet.from, e.packet.msg;
    UnmovedStill(s);
    StillOrderly(s, e, s);
    if Admissible(s, from, msg) {
      match msg
      case RequestVote(_, _, _, _, _) => VoteOrderly(s, e);
      case RequestVoteResp(_, _, _) => VoteRespOrderly(s, e);
      case AppendEntries(_, _, _, _, _, _) =>
        AppendStill(s, from, msg);
        StillOrderly(s, e, HandleAppend(s, from, msg));
      case InstallSnapshot(_, _, _, _, _) =>
        SnapshotStill(s, from, msg);
        StillOrderly(s, e, HandleInstallSnapshot(s, from, msg));
      case _ =>
        ReplyStill(s, from, msg);
        StillOrderly(s, e, Step(s, from, msg));
    }
  }

  lemma UnmovedStill(s: State)
    ensures Still(s, s)
  {
  }

  lemma CallOrderly(s: State, e: Event)
    requires s.id !in s.peers && (e.Ticks? || e.Receives? || e.Proposes?)
    ensures Orderly(s, e, Called(s, e))
  {
    hide Orderly, Still, Tick, Step, Propose;
    match e
    case Ticks(_) =>
      if s.role == Leader {
        LeaderTickStill(s);
        StillOrderly(s, e, Tick(s));
      } else {
        WaitOrderly(s, e);
      }
    case Receives(_) => StepOrderly(s, e);
    case Proposes(_, command) =>
      ProposeStill(s, command);
      StillOrderly(s, e, Propose(s, command));
  }

  // ---- runs -------------------------------------------------------------

  /** Whom `n` counts has granted it a pre-vote, and nothing it was handed is unsent. */
  ghost predicate Counted(c: Cluster, n: NodeId)
    requires n in c.member
  {
    var s := c.member[n].raft;
    && s.out == []
    && (s.role == PreCandidate ==> forall v :: v in s.votes && v != n ==> v in s.peers && Granted(c, v, n))
  }

  ghost predicate Granted(c: Cluster, v: NodeId, n: NodeId) { exists t :: PreGrant(v, n, t) in c.net }

  ghost predicate AllCounted(c: Cluster) { forall n :: n in c.member ==> Counted(c, n) }

  lemma Unsent(c: Cluster, n: NodeId)
    requires n in c.member && Counted(c, n)
    ensures c.member[n].raft.out == []
  {
  }

  /** The members are who they are, and know each other. */
  lemma GroupAt(boot: Replicated, b: seq<Cluster>, ev: seq<Event>, i: nat, n: NodeId)
    requires Run(boot, b, ev) && i < |b| && n in b[i].member
    ensures var s := b[i].member[n].raft;
            && s.id == n && n !in s.peers && |b[i].member.Keys| == |s.peers| + 1
            && (forall p :: p in s.peers ==> p in b[i].member) && b[i].member[n].disk == Durable(s)
  {
    hide Run;
    var hs := Histories(boot, b, ev);
    assert Agrees(boot, b[i], hs[i]);
    hide P.Inv, NetOk;
    assert MemberOk(boot, hs[i], n, b[i].member[n]);
    E.GroupSize(hs[i], n, b[i].member[n].raft);
  }

  lemma SentAre(c: Cluster, n: NodeId, s: State, p: Packet)
    requires n in c.member && p in Drain(c, n, s).net && p !in c.net
    ensures p.from == n && exists k :: 0 <= k < |s.out| && s.out[k] == Addressed(p.to, p.msg)
  {
    var k :| 0 <= k < |s.out| && Packet(n, s.out[k].to, s.out[k].msg) == p;
    assert s.out[k] == Addressed(p.to, p.msg);
  }

  lemma CountedLater(c: Cluster, d: Cluster, n: NodeId)
    requires n in c.member && n in d.member && d.member[n] == c.member[n] && c.net <= d.net && Counted(c, n)
    ensures Counted(d, n)
  {
    var s := c.member[n].raft;
    if s.role == PreCandidate {
      forall v | v in s.votes && v != n ensures Granted(d, v, n) {
        var t :| PreGrant(v, n, t) in c.net;
        assert PreGrant(v, n, t) in d.net;
      }
    }
  }

  lemma CallCounts(c: Cluster, e: Event)
    requires Callable(c, e) && Counted(c, Actor(e))
    requires var s := c.member[Actor(e)].raft; s.id == Actor(e) && s.id !in s.peers
    ensures var d := Drain(c, Actor(e), Called(c.member[Actor(e)].raft, e)); Counted(d, Actor(e))
  {
    var n := Actor(e);
    var s := c.member[n].raft;
    CallOrderly(s, e);
    hide Called, Orderly;
    var q := Called(s, e);
    var d := Drain(c, n, q);
    if q.role == PreCandidate {
      forall v | v in q.votes && v != n ensures v in q.peers && Granted(d, v, n) {
        CountedFrom(s, e, q, v);
        if Brings(s, e, v) {
          assert e.packet == PreGrant(v, n, e.packet.msg.term) && e.packet in d.net;
        } else {
          assert Granted(c, v, n);
          var t :| PreGrant(v, n, t) in c.net;
          assert PreGrant(v, n, t) in d.net;
        }
      }
    }
  }

  lemma CountedFrom(s: State, e: Event, q: State, v: NodeId)
    requires Orderly(s, e, q) && q.role == PreCandidate && v in q.votes && v != s.id
    ensures q.peers == s.peers && s.role == PreCandidate && (v in s.votes || Brings(s, e, v))
  {
  }

  lemma NextCounted(boot: Replicated, c: Cluster, e: Event, d: Cluster)
    requires Next(boot, c, e, d) && AllCounted(c)
    requires var s := c.member[Actor(e)].raft; s.id == Actor(e) && s.id !in s.peers
    ensures AllCounted(d) && d.member.Keys == c.member.Keys && c.net <= d.net
  {
    var n := Actor(e);
    forall k | k in d.member ensures Counted(d, k) {
      if k != n {
        hide Called, Compacted, Restarted, Revived, Counted;
        CountedLater(c, d, k);
      } else {
        ActorCounted(boot, c, e, d);
      }
    }
  }

  lemma ActorCounted(boot: Replicated, c: Cluster, e: Event, d: Cluster)
    requires Next(boot, c, e, d) && Counted(c, Actor(e))
    requires var s := c.member[Actor(e)].raft; s.id == Actor(e) && s.id !in s.peers
    ensures Actor(e) in d.member && Counted(d, Actor(e))
  {
    var n := Actor(e);
    match e
    case Compacts(_) => CompactCounted(c, d, n);
    case Restarts(_, draws) => RebootedCounted(boot, c.member[n], draws);
    case Dies(during, draws) =>
      RebootedCounted(boot, c.member[n].(disk := Durable(Called(c.member[n].raft, during))), draws);
    case _ => CallCounts(c, e);
  }

  lemma CompactCounted(c: Cluster, d: Cluster, n: NodeId)
    requires n in c.member && Counted(c, n) && d == c.(member := c.member[n := Compacted(c.member[n])])
    ensures Counted(d, n)
  {
    var r := d.member[n].raft;
    var s := c.member[n].raft;
    assert r.out == s.out && r.role == s.role && r.votes == s.votes && r.peers == s.peers by { hide TermAt; }
    assert d.net == c.net;
    if s.role == PreCandidate {
      forall v | v in s.votes && v != n ensures Granted(d, v, n) {
        assert Granted(c, v, n);
      }
    }
  }

  lemma RebootedCounted(boot: Replicated, m: Member, draws: nat -> nat)
    ensures var r := Restarted(boot, m, draws).raft;
            r.out == [] && r.role == Follower && r.currentTerm == m.disk.currentTerm && r.votedFor == m.disk.votedFor
  {
    hide Timeout;
  }

  lemma {:induction false} RunCounted(boot: Replicated, b: seq<Cluster>, ev: seq<Event>, i: nat)
    requires Run(boot, b, ev) && i < |b|
    ensures AllCounted(b[i]) && b[i].member.Keys == b[0].member.Keys
  {
    hide Run, Next, AllCounted;
    if i == 0 {
      StartCounted(boot, b, ev);
    } else {
      RunCounted(boot, b, ev, i - 1);
      StepTaken(boot, b, ev, i - 1);
      GroupAt(boot, b, ev, i - 1, Actor(ev[i - 1]));
      NextCounted(boot, b[i - 1], ev[i - 1], b[i]);
    }
  }

  lemma StartCounted(boot: Replicated, b: seq<Cluster>, ev: seq<Event>)
    requires Run(boot, b, ev)
    ensures AllCounted(b[0])
  {
    forall n | n in b[0].member ensures Counted(b[0], n) {
      assert StartsFresh(boot, b[0].member.Keys, n, b[0].member[n]);
    }
  }

  lemma StepTaken(boot: Replicated, b: seq<Cluster>, ev: seq<Event>, i: nat)
    requires Run(boot, b, ev) && i + 1 < |b|
    ensures |b| == |ev| + 1 && Next(boot, b[i], ev[i], b[i + 1]) && Actor(ev[i]) in b[i].member
  {
    hide Called, Compacted, Restarted, Revived;
  }

  // ---- the theorem ------------------------------------------------------

  /** While `v` trusts its leader, it grants nobody a pre-vote. */
  lemma NoneGranted(boot: Replicated, c: Cluster, e: Event, d: Cluster, v: NodeId, n: NodeId, t: nat)
    requires Next(boot, c, e, d) && AllCounted(c) && v in c.member && Trusts(c.member[v].raft)
    requires var s := c.member[Actor(e)].raft; s.id == Actor(e) && s.id !in s.peers
    requires PreGrant(v, n, t) in d.net
    ensures PreGrant(v, n, t) in c.net
  {
    if PreGrant(v, n, t) !in c.net {
      var a := Actor(e);
      var s := c.member[a].raft;
      assert Counted(c, a);
      CallOrderly(s, e);
      hide Called;
      SentAre(c, a, Called(s, e), PreGrant(v, n, t));
      GrantedTrusting(s, e, Called(s, e), Addressed(n, RequestVoteResp(t, true, true)));
    }
  }

  lemma GrantedTrusting(s: State, e: Event, q: State, a: Addressed)
    requires Orderly(s, e, q) && s.out == [] && IsPreGrant(a.msg) && exists k :: 0 <= k < |q.out| && q.out[k] == a
    ensures !Trusts(s)
  {
  }

  lemma {:induction false} GrantedBefore(boot: Replicated, b: seq<Cluster>, ev: seq<Event>, i: nat, k: nat, v: NodeId,
                                         n: NodeId, t: nat)
    requires Run(boot, b, ev) && i <= k < |b| && PreGrant(v, n, t) in b[k].net
    requires forall m :: i <= m < k ==> v in b[m].member && Trusts(b[m].member[v].raft)
    ensures PreGrant(v, n, t) in b[i].net
    decreases k
  {
    hide Run, Next, AllCounted, Trusts;
    if i < k {
      RunCounted(boot, b, ev, k - 1);
      StepTaken(boot, b, ev, k - 1);
      GroupAt(boot, b, ev, k - 1, Actor(ev[k - 1]));
      NoneGranted(boot, b[k - 1], ev[k - 1], b[k], v, n, t);
      GrantedBefore(boot, b, ev, i, k - 1, v, n, t);
    }
  }

  /** A new term with one's own vote. */
  predicate Opens(s: State, r: State) { r.currentTerm > s.currentTerm && r.votedFor == Some(s.id) }

  /** Whoever opens an election has, with the reply it has just got, the pre-votes of a quorum. */
  lemma OpenedBy(boot: Replicated, c: Cluster, e: Event, d: Cluster) returns (w: set<NodeId>)
    requires Next(boot, c, e, d) && AllCounted(c) && Actor(e) in d.member
    requires var s := c.member[Actor(e)].raft;
             && s.id == Actor(e) && s.id !in s.peers && s.peers != [] && |c.member.Keys| == |s.peers| + 1
             && (forall p :: p in s.peers ==> p in c.member) && Opens(s, d.member[Actor(e)].raft)
             && c.member[Actor(e)].disk == Durable(s)
    ensures c.member[Actor(e)].raft.role == PreCandidate && P.Quorum(c.member.Keys, w)
    ensures forall v :: v in w && v != Actor(e) ==> Granted(c, v, Actor(e))
  {
    var n := Actor(e);
    var s := c.member[n].raft;
    var call := if e.Dies? then e.during else e;
    assert Counted(c, n);
    CallMade(boot, c, e, d);
    CallOrderly(s, call);
    hide Called;
    var q := Called(s, call);
    w := s.votes + {call.packet.from};
    OpeningVotes(s, call, q);
    assert call.packet == PreGrant(call.packet.from, n, call.packet.msg.term);
    assert w <= c.member.Keys by {
      assert s.votes <= c.member.Keys by {
        forall v | v in s.votes ensures v in c.member { }
      }
    }
  }

  lemma OpeningVotes(s: State, e: Event, q: State)
    requires Orderly(s, e, q) && q.currentTerm > s.currentTerm && q.votedFor == Some(s.id) && s.peers != []
    ensures s.role == PreCandidate && e.Receives? && Brings(s, e, e.packet.from)
    ensures 2 * |s.votes + {e.packet.from}| > |s.peers| + 1
  {
  }

  lemma CompactedTerm(m: Member)
    ensures Compacted(m).raft.currentTerm == m.raft.currentTerm
  {
    hide TermAt;
  }

  lemma CallMade(boot: Replicated, c: Cluster, e: Event, d: Cluster)
    requires Next(boot, c, e, d) && Opens(c.member[Actor(e)].raft, d.member[Actor(e)].raft)
    requires c.member[Actor(e)].disk == Durable(c.member[Actor(e)].raft)
    ensures var call := if e.Dies? then e.during else e;
            var q := Called(c.member[Actor(e)].raft, call);
            && Callable(c, call) && Actor(call) == Actor(e)
            && Opens(c.member[Actor(e)].raft, q)
  {
    var n := Actor(e);
    var m := c.member[n];
    match e
    case Compacts(_) => CompactedTerm(m);
    case Restarts(_, draws) => RebootedCounted(boot, m, draws);
    case Dies(during, draws) =>
      RebootedCounted(boot, m.(disk := Durable(Called(m.raft, during))), draws);
    case _ =>
  }

  /**
   * No disruption: in every run of the group, if from moment `i` to moment `k` every member
   * of a quorum trusts its leader and is not campaigning itself, and at moment `k` somebody
   * opens an election, then one of that quorum had granted it a pre-vote before moment `i`.
   */
  lemma NoDisruption(boot: Replicated, b: seq<Cluster>, ev: seq<Event>, i: nat, k: nat, q: set<NodeId>)
    returns (v: NodeId, t: nat)
    requires Run(boot, b, ev) && |b| == |ev| + 1 && i <= k < |ev| && |b[0].member.Keys| > 1
    requires P.Quorum(b[0].member.Keys, q)
    requires forall m, u :: i <= m <= k && u in q ==>
               u in b[m].member && Trusts(b[m].member[u].raft) && b[m].member[u].raft.role != PreCandidate
    requires var n := Actor(ev[k]);
             n in b[k].member && n in b[k + 1].member && Opens(b[k].member[n].raft, b[k + 1].member[n].raft)
    ensures v in q && v != Actor(ev[k]) && PreGrant(v, Actor(ev[k]), t) in b[i].net
  {
    var n := Actor(ev[k]);
    hide Run, Next, Opens, AllCounted, Trusts;
    StepTaken(boot, b, ev, k);
    RunCounted(boot, b, ev, k);
    GroupAt(boot, b, ev, k, n);
    var w := OpenedBy(boot, b[k], ev[k], b[k + 1]);
    v := P.QuorumsMeet(b[0].member.Keys, w, q);
    assert Granted(b[k], v, n);
    t :| PreGrant(v, n, t) in b[k].net;
    GrantedBefore(boot, b, ev, i, k, v, n, t);
  }

  /**
   * Such a stale pre-vote does count: a member asking for pre-votes takes a granted reply
   * of any term up to its own, whichever request it answers.
   */
  lemma StalePreVoteCounts(s: State, from: NodeId, term: nat)
    requires s.role == PreCandidate && from in s.peers && term <= s.currentTerm
    requires 2 * |s.votes + {from}| > |s.peers| + 1
    ensures var r := Step(s, from, RequestVoteResp(term, true, true));
            r.currentTerm == s.currentTerm + 1 && r.role != PreCandidate
  {
    hide StartElection;
    ElectionOpens(s.(votes := s.votes + {from}));
  }
}
