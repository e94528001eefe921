/**
 * One member of the group against the history of the whole protocol: which
 * messages are truthful (`MsgOk`), when a member's engine state agrees with the
 * history (`NodeOk`), and that every engine operation keeps this agreement.
 *
 * `g.core[n].log` is the member's full log; `baseIndex` of it has been folded
 * into `snapshot` and only the rest is live in the engine.
 */
module RaftNode {
  import opened Model
  import opened RaftSpec
  import P = Protocol
  import PS = ProtocolSteps

  /** Term of 1-based `index` in a full log, 0 before the first entry. */
  function TermOf(log: seq<Entry>, index: nat): nat
    requires index <= |log|
  {
    if index == 0 then 0 else log[index - 1].term
  }

  /** An append carries a stretch of the leader's log and a commit index the leader's log justifies. */
  ghost predicate AppendOk(g: P.Global, from: NodeId, t: nat, prev: nat, prevTerm: nat, entries: seq<Entry>,
                           commit: nat)
    requires P.WellFormed(g)
  {
    && t in g.leaderOf && g.leaderOf[t] == from
    && prev + |entries| <= |g.leaderLog[t]|
    && entries == g.leaderLog[t][prev..prev + |entries|]
    && prevTerm == TermOf(g.leaderLog[t], prev)
    && P.Committed(g, g.leaderLog[t], commit, t)
  }

  /** A snapshot is the replay of a committed prefix of the leader's log. */
  ghost predicate SnapshotOk(boot: Replicated, g: P.Global, from: NodeId, t: nat, index: nat, indexTerm: nat,
                             data: Replicated)
    requires P.WellFormed(g)
  {
    && t in g.leaderOf && g.leaderOf[t] == from
    && 0 < index && P.Committed(g, g.leaderLog[t], index, t)
    && indexTerm == TermOf(g.leaderLog[t], index)
    && data == Replay(boot, g.leaderLog[t][..index])
  }

  /** What a message from `from` to `to` says about the history is true. */
  ghost predicate MsgOk(boot: Replicated, g: P.Global, from: NodeId, to: NodeId, msg: Message)
    requires P.WellFormed(g)
  {
    match msg
    case RequestVote(t, _, lastIndex, lastTerm, preVote) =>
      preVote || ((t, from) in g.candLog && lastIndex == |g.candLog[(t, from)]|
                  && lastTerm == PS.LastTerm(g.candLog[(t, from)]))
    case RequestVoteResp(t, granted, preVote) =>
      granted && !preVote ==> (from, t, to) in g.votes
    case AppendEntries(t, _, prev, prevTerm, entries, commit) =>
      AppendOk(g, from, t, prev, prevTerm, entries, commit)
    case AppendEntriesResp(t, success, index) =>
      success ==> P.Acked(g, from, t, index)
    case InstallSnapshot(t, _, index, indexTerm, data) =>
      SnapshotOk(boot, g, from, t, index, indexTerm, data)
    case InstallSnapshotResp(t, success, index) =>
      success ==> P.Acked(g, from, t, index)
  }

  lemma AppendOkStays(g: P.Global, h: P.Global, n: NodeId, from: NodeId, t: nat, prev: nat, prevTerm: nat,
                      entries: seq<Entry>, commit: nat)
    requires P.StepBy(g, h, n) && AppendOk(g, from, t, prev, prevTerm, entries, commit)
    ensures AppendOk(h, from, t, prev, prevTerm, entries, commit)
  {
    LeaderLogStays(g, h, n, t, commit);
    var a, b := g.leaderLog[t], h.leaderLog[t];
    assert b[prev..prev + |entries|] == a[prev..prev + |entries|];
  }

  lemma SnapshotOkStays(boot: Replicated, g: P.Global, h: P.Global, n: NodeId, from: NodeId, t: nat, index: nat,
                        indexTerm: nat, data: Replicated)
    requires P.StepBy(g, h, n) && SnapshotOk(boot, g, from, t, index, indexTerm, data)
    ensures SnapshotOk(boot, h, from, t, index, indexTerm, data)
  {
    LeaderLogStays(g, h, n, t, index);
    var a, b := g.leaderLog[t], h.leaderLog[t];
    assert b[..index] == a[..index];
  }

  lemma MsgOkStays(boot: Replicated, g: P.Global, h: P.Global, n: NodeId, from: NodeId, to: NodeId, msg: Message)
    requires P.StepBy(g, h, n) && MsgOk(boot, g, from, to, msg)
    ensures MsgOk(boot, h, from, to, msg)
  {
    match msg
    case RequestVote(_, _, _, _, _) =>
    case RequestVoteResp(_, _, _) =>
    case AppendEntries(t, _, prev, prevTerm, entries, commit) =>
      AppendOkStays(g, h, n, from, t, prev, prevTerm, entries, commit);
    case AppendEntriesResp(t, _, index) =>
      PS.AckedStays(g, h, n, from, t, index);
    case InstallSnapshot(t, _, index, indexTerm, data) =>
      SnapshotOkStays(boot, g, h, n, from, t, index, indexTerm, data);
    case InstallSnapshotResp(t, _, index) =>
      PS.AckedStays(g, h, n, from, t, index);
  }

  lemma LeaderLogStays(g: P.Global, h: P.Global, n: NodeId, t: nat, c: nat)
    requires P.StepBy(g, h, n) && t in g.leaderOf && P.Committed(g, g.leaderLog[t], c, t)
    ensures t in h.leaderOf && g.leaderLog[t] <= h.leaderLog[t] && P.Committed(h, h.leaderLog[t], c, t)
  {
    PS.CommittedStays(g, h, n, g.leaderLog[t], c, t, t);
    PS.SameCommit(h, g.leaderLog[t], h.leaderLog[t], c, t);
  }

  // ---- agreement of one member with the history -------------------------

  /** The peers are the other members, each listed once. */
  ghost predicate GroupOk(g: P.Global, n: NodeId, s: State) {
    n in g.ids && s.id == n && Distinct(s.peers) && (forall p :: p in s.peers <==> p in g.ids && p != n)
  }

  /** The live log continues the full log `full` at the snapshot base. */
  predicate Holds(s: State, full: seq<Entry>) {
    && |full| == LastIndex(s) && s.log == full[s.baseIndex..]
    && s.baseTerm == TermOf(full, s.baseIndex)
    && s.baseIndex <= s.commitIndex <= |full|
  }

  ghost predicate CoreOk(g: P.Global, n: NodeId, s: State)
    requires P.WellFormed(g) && n in g.ids
  {
    var c := g.core[n];
    && c.term == s.currentTerm && c.vote == s.votedFor && c.commit == s.commitIndex
    && Holds(s, c.log)
  }

  /** Snapshot and applied state are the replay of the log they stand for. */
  ghost predicate AppliedOk(boot: Replicated, full: seq<Entry>, s: State, sm: Replicated)
    requires Holds(s, full)
  {
    && s.snapshot == (if s.baseIndex == 0 then None else Some(Replay(boot, full[..s.baseIndex])))
    && s.baseIndex <= s.lastApplied <= s.commitIndex
    && (if s.pendingRestore then s.lastApplied == s.baseIndex && s.baseIndex > 0
        else sm == Replay(boot, full[..s.lastApplied]))
  }

  ghost predicate LeadingOk(g: P.Global, n: NodeId, s: State)
    requires P.WellFormed(g) && n in g.ids
  {
    var t := s.currentTerm;
    && t > 0 && s.votedFor == Some(n) && t in g.leaderOf && g.leaderOf[t] == n && g.leaderLog[t] == g.core[n].log
    && P.Acked(g, n, t, |g.core[n].log|)
    && (forall p :: p in s.nextIndex ==> 1 <= s.nextIndex[p] <= LastIndex(s) + 1)
    && (forall p :: p in s.matchIndex && s.matchIndex[p] > 0 ==> P.Acked(g, p, t, s.matchIndex[p]))
    && (forall p :: p in s.matchIndex ==> s.matchIndex[p] <= LastIndex(s))
    && (forall p :: p in s.peers ==> p in s.nextIndex && p in s.matchIndex)
  }

  ghost predicate CampaignOk(g: P.Global, n: NodeId, s: State)
    requires P.WellFormed(g) && n in g.ids
  {
    var t := s.currentTerm;
    && s.votedFor == Some(n) && (t, n) in g.candLog && g.candLog[(t, n)] == g.core[n].log
    && (t in g.leaderOf ==> g.leaderOf[t] != n)
    && (forall v :: v in s.votes ==> (v, t, n) in g.votes)
  }

  ghost predicate OutOk(boot: Replicated, g: P.Global, n: NodeId, out: seq<Addressed>)
    requires P.WellFormed(g)
  {
    forall k :: 0 <= k < |out| ==> MsgOk(boot, g, n, out[k].to, out[k].msg)
  }

  ghost predicate NodeOk(boot: Replicated, g: P.Global, n: NodeId, s: State, sm: Replicated) {
    && P.WellFormed(g) && GroupOk(g, n, s) && CoreOk(g, n, s)
    && AppliedOk(boot, g.core[n].log, s, sm)
    && (s.role == Leader ==> LeadingOk(g, n, s))
    && (s.role == Candidate ==> CampaignOk(g, n, s))
    && OutOk(boot, g, n, s.out)
  }

  lemma OutOkStays(boot: Replicated, g: P.Global, h: P.Global, n: NodeId, m: NodeId, out: seq<Addressed>)
    requires P.StepBy(g, h, n) && OutOk(boot, g, m, out)
    ensures OutOk(boot, h, m, out)
  {
    forall k | 0 <= k < |out| ensures MsgOk(boot, h, m, out[k].to, out[k].msg) {
      MsgOkStays(boot, g, h, n, m, out[k].to, out[k].msg);
    }
  }

  /** A step of `n` leaves every other member in agreement. */
  lemma NodeOkStays(boot: Replicated, g: P.Global, h: P.Global, n: NodeId, m: NodeId, s: State, sm: Replicated)
    requires P.StepBy(g, h, n) && NodeOk(boot, g, m, s, sm) && m != n
    ensures NodeOk(boot, h, m, s, sm)
  {
    OutOkStays(boot, g, h, n, m, s.out);
    if s.role == Leader {
      var t := s.currentTerm;
      PS.AckedStays(g, h, n, m, t, |g.core[m].log|);
      forall p | p in s.matchIndex && s.matchIndex[p] > 0 ensures P.Acked(h, p, t, s.matchIndex[p]) {
        PS.AckedStays(g, h, n, p, t, s.matchIndex[p]);
      }
    }
  }

  // ---- sending ----------------------------------------------------------

  lemma SendOk(boot: Replicated, g: P.Global, n: NodeId, s: State, sm: Replicated, to: NodeId, msg: Message)
    requires NodeOk(boot, g, n, s, sm) && MsgOk(boot, g, n, to, msg)
    ensures NodeOk(boot, g, n, Send(s, to, msg), sm)
  {
  }

  lemma {:induction false} SendAllOk(boot: Replicated, g: P.Global, n: NodeId, s: State, sm: Replicated,
                                     ps: seq<NodeId>, msg: Message)
    requires NodeOk(boot, g, n, s, sm) && forall p :: p in ps ==> MsgOk(boot, g, n, p, msg)
    ensures NodeOk(boot, g, n, SendAll(s, ps, msg), sm)
  {
    if ps != [] {
      var k := |ps| - 1;
      SendAllOk(boot, g, n, s, sm, ps[..k], msg);
      SendOk(boot, g, n, SendAll(s, ps[..k], msg), sm, ps[k], msg);
    }
  }

  lemma CommittedBelow(g: P.Global, log: seq<Entry>, c: nat, d: nat, bound: nat)
    requires P.WellFormed(g) && P.Committed(g, log, c, bound) && d <= c
    ensures P.Committed(g, log, d, bound)
  {
    if d > 0 {
      var t, i :| P.CommitWitness(g, log, c, bound, t, i);
      P.PrefixCut(g.leaderLog[t], log, c, d);
      assert P.CommitWitness(g, log, d, bound, t, i);
    }
  }

  lemma LiveSuffix(s: State, full: seq<Entry>, next: nat)
    requires Holds(s, full) && s.baseIndex < next <= LastIndex(s) + 1
    ensures EntriesFrom(s, next) == full[next - 1..]
    ensures TermAt(s, next - 1) == TermOf(full, next - 1)
  {
  }

  lemma AppendMsgOk(g: P.Global, n: NodeId, s: State, next: nat)
    requires P.WellFormed(g) && n in g.ids && CoreOk(g, n, s)
    requires var t := s.currentTerm; t in g.leaderOf && g.leaderOf[t] == n && g.leaderLog[t] == g.core[n].log
    requires P.Committed(g, g.core[n].log, s.commitIndex, s.currentTerm)
    requires s.baseIndex < next <= LastIndex(s) + 1
    ensures AppendOk(g, n, s.currentTerm, next - 1, TermAt(s, next - 1), EntriesFrom(s, next), s.commitIndex)
  {
    LiveSuffix(s, g.core[n].log, next);
  }

  lemma SnapshotMsgOk(boot: Replicated, g: P.Global, n: NodeId, s: State, sm: Replicated)
    requires P.WellFormed(g) && n in g.ids && CoreOk(g, n, s) && LeadingOk(g, n, s)
    requires AppliedOk(boot, g.core[n].log, s, sm) && s.baseIndex > 0
    requires P.Committed(g, g.core[n].log, s.commitIndex, s.currentTerm)
    ensures s.snapshot.Some?
    ensures SnapshotOk(boot, g, n, s.currentTerm, s.baseIndex, s.baseTerm, s.snapshot.value)
  {
    CommittedBelow(g, g.core[n].log, s.commitIndex, s.baseIndex, s.currentTerm);
  }

  /** Sending touches nothing but the out buffer and the snapshot bookkeeping. */
  lemma SentOk(boot: Replicated, g: P.Global, n: NodeId, s: State, r: State, sm: Replicated)
    requires NodeOk(boot, g, n, s, sm)
    requires r == s.(out := r.out, snapshotInflight := r.snapshotInflight) && OutOk(boot, g, n, r.out)
    ensures NodeOk(boot, g, n, r, sm)
  {
  }

  lemma OutPush(boot: Replicated, g: P.Global, n: NodeId, out: seq<Addressed>, a: Addressed)
    requires P.WellFormed(g) && OutOk(boot, g, n, out) && MsgOk(boot, g, n, a.to, a.msg)
    ensures OutOk(boot, g, n, out + [a])
  {
  }

  /** The message a leader has for `peer`: the snapshot if `peer` needs what is compacted away. */
  function AppendFor(s: State, peer: NodeId): Message
    requires s.snapshot.Some? || s.baseIndex < Get(s.nextIndex, peer, LastIndex(s) + 1)
  {
    var next := Get(s.nextIndex, peer, LastIndex(s) + 1);
    if next <= s.baseIndex then InstallSnapshot(s.currentTerm, s.id, s.baseIndex, s.baseTerm, s.snapshot.value)
    else AppendEntries(s.currentTerm, s.id, next - 1, TermAt(s, next - 1), EntriesFrom(s, next), s.commitIndex)
  }

  lemma AppendForOk(boot: Replicated, g: P.Global, n: NodeId, s: State, sm: Replicated, peer: NodeId)
    requires P.WellFormed(g) && n in g.ids && s.id == n && CoreOk(g, n, s) && LeadingOk(g, n, s)
    requires AppliedOk(boot, g.core[n].log, s, sm)
    requires P.Committed(g, g.core[n].log, s.commitIndex, s.currentTerm)
    ensures s.snapshot.Some? || s.baseIndex < Get(s.nextIndex, peer, LastIndex(s) + 1)
    ensures MsgOk(boot, g, n, peer, AppendFor(s, peer))
  {
    var next := Get(s.nextIndex, peer, LastIndex(s) + 1);
    assert 1 <= next <= LastIndex(s) + 1;
    LedLog(g, n, s);
    hide LeadingOk, P.Committed, AppendOk, SnapshotOk, TermAt, EntriesFrom, Replay;
    if next <= s.baseIndex {
      SnapshotMsgOk(boot, g, n, s, sm);
    } else {
      AppendMsgOk(g, n, s, next);
    }
  }

  lemma LedLog(g: P.Global, n: NodeId, s: State)
    requires P.WellFormed(g) && n in g.ids && LeadingOk(g, n, s)
    ensures var t := s.currentTerm;
            t in g.leaderOf && g.leaderOf[t] == n && t in g.leaderLog && g.leaderLog[t] == g.core[n].log
  {
  }

  lemma SendAppendIsAppendFor(s: State, peer: NodeId)
    requires s.snapshot.Some? || s.baseIndex < Get(s.nextIndex, peer, LastIndex(s) + 1)
    ensures SendAppend(s, peer).out == s.out + [Addressed(peer, AppendFor(s, peer))]
  {
  }

  lemma SendAppendOk(boot: Replicated, g: P.Global, n: NodeId, s: State, sm: Replicated, peer: NodeId)
    requires P.WellFormed(g) && P.CommitsOk(g) && NodeOk(boot, g, n, s, sm) && s.role == Leader
    ensures NodeOk(boot, g, n, SendAppend(s, peer), sm)
  {
    AppendForOk(boot, g, n, s, sm, peer);
    SendAppendIsAppendFor(s, peer);
    OutPush(boot, g, n, s.out, Addressed(peer, AppendFor(s, peer)));
    SentOk(boot, g, n, s, SendAppend(s, peer), sm);
  }

  lemma {:induction false} SendAppendsOk(boot: Replicated, g: P.Global, n: NodeId, s: State, sm: Replicated,
                                         ps: seq<NodeId>)
    requires P.WellFormed(g) && P.CommitsOk(g) && NodeOk(boot, g, n, s, sm) && s.role == Leader
    ensures NodeOk(boot, g, n, SendAppends(s, ps), sm)
  {
    if ps != [] {
      SendAppendsOk(boot, g, n, s, sm, ps[..|ps| - 1]);
      SendAppendOk(boot, g, n, SendAppends(s, ps[..|ps| - 1]), sm, ps[|ps| - 1]);
    }
  }
}
