/**
 * Snapshots, acknowledgements, proposals, compaction, hand-over and restart keep a member in
 * agreement with the history.
 */
module RaftCommit {
  import opened Model
  import opened RaftSpec
  import opened RaftNode
  import opened RaftElections
  import opened RaftReplication
  import opened RaftAppends
  import P = Protocol
  import PS = ProtocolSteps

  // ---- snapshots --------------------------------------------------------

  /** Member `n` holds the first `i` entries of the log of term `t`'s leader. */
  ghost predicate Shares(g: P.Global, n: NodeId, t: nat, i: nat) {
    && n in g.core && t in g.leaderLog && i <= |g.core[n].log| && i <= |g.leaderLog[t]|
    && g.core[n].log[..i] == g.leaderLog[t][..i]
  }

  /** Member `n` does not hold all of the first `i` entries of the log of term `t`'s leader. */
  ghost predicate Lacks(g: P.Global, n: NodeId, t: nat, i: nat) {
    n in g.core && t in g.leaderLog && i <= |g.leaderLog[t]| && !(g.leaderLog[t][..i] <= g.core[n].log)
  }

  lemma InstalledOk(boot: Replicated, g: P.Global, h: P.Global, n: NodeId, s: State, sm: Replicated, req: Message,
                    full: seq<Entry>)
    requires NodeOk(boot, g, n, s, sm) && s.role == Follower && P.StepBy(g, h, n)
    requires req.InstallSnapshot? && req.lastIncludedIndex > s.commitIndex
    requires h.core[n] == g.core[n].(log := full, commit := req.lastIncludedIndex)
    requires var i := req.lastIncludedIndex;
             i <= |full| && req.lastIncludedTerm == TermOf(full, i) && req.data == Replay(boot, full[..i])
             && Install(s, req).log == full[i..]
    ensures NodeOk(boot, h, n, Install(s, req), sm)
  {
    OutOkStays(boot, g, h, n, n, s.out);
  }

  lemma InstallLog(s: State, full: seq<Entry>, req: Message)
    requires Holds(s, full) && req.InstallSnapshot? && s.baseIndex < req.lastIncludedIndex <= |full|
    requires req.lastIncludedTerm == TermOf(full, req.lastIncludedIndex)
    ensures Install(s, req).log == full[req.lastIncludedIndex..]
  {
    assert full[s.baseIndex..][req.lastIncludedIndex - s.baseIndex..] == full[req.lastIncludedIndex..];
  }

  /** The snapshot boundary is in the log: the log stays as it is. */
  lemma InstallKeepsOk(boot: Replicated, g: P.Global, n: NodeId, s: State, sm: Replicated, from: NodeId, req: Message)
    returns (h: P.Global)
    requires P.Inv(g) && NodeOk(boot, g, n, s, sm) && s.role == Follower
    requires req.InstallSnapshot? && MsgOk(boot, g, from, n, req) && req.term == s.currentTerm
    requires s.commitIndex < req.lastIncludedIndex && Shares(g, n, req.term, req.lastIncludedIndex)
    ensures Moved(boot, g, h, n, Install(s, req), sm)
    ensures h.leaderOf == g.leaderOf && Shares(h, n, req.term, req.lastIncludedIndex)
  {
    hide P.Inv, NodeOk;
    Unpack(boot, g, n, s, sm);
    var i := req.lastIncludedIndex;
    var full := g.core[n].log;
    var lead := g.leaderLog[req.term];
    assert TermOf(full, i) == TermOf(lead, i) by {
      assert full[i - 1] == full[..i][i - 1] == lead[..i][i - 1];
    }
    PS.SameCommit(g, lead, full, i, s.currentTerm);
    h := PS.AdvanceCommit(g, n, i);
    InstallLog(s, full, req);
    hide Install, P.StepBy, P.Committed, TermOf, Holds;
    InstalledOk(boot, g, h, n, s, sm, req, full);
  }

  /** The snapshot boundary is not in the log: the leader's prefix takes its place. */
  lemma InstallReplacesOk(boot: Replicated, g: P.Global, n: NodeId, s: State, sm: Replicated, from: NodeId,
                          req: Message)
    returns (h: P.Global)
    requires P.Inv(g) && NodeOk(boot, g, n, s, sm) && s.role == Follower
    requires req.InstallSnapshot? && MsgOk(boot, g, from, n, req) && req.term == s.currentTerm
    requires req.lastIncludedIndex > s.commitIndex && Install(s, req).log == []
    requires Lacks(g, n, req.term, req.lastIncludedIndex) && Shares(g, n, req.term, s.commitIndex)
    ensures Moved(boot, g, h, n, Install(s, req), sm)
    ensures h.leaderOf == g.leaderOf && Shares(h, n, req.term, req.lastIncludedIndex)
  {
    hide P.Inv, NodeOk, P.StepBy, P.Committed, Install;
    Unpack(boot, g, n, s, sm);
    var i := req.lastIncludedIndex;
    var lead := g.leaderLog[req.term];
    SnapshotWithin(boot, g, n, from, req);
    h := TakePrefix(g, n, req.term, i);
    assert lead[..i][..i] == lead[..i];
    InstalledOk(boot, g, h, n, s, sm, req, lead[..i]);
  }

  /** A member takes over a committed prefix of its leader's log, and commits it. */
  lemma TakePrefix(g: P.Global, n: NodeId, t: nat, i: nat) returns (h: P.Global)
    requires P.Inv(g) && P.WellFormed(g) && n in g.ids && t == g.core[n].term && t in g.leaderOf && i > g.core[n].commit
    requires P.Committed(g, g.leaderLog[t], i, t)
    requires Lacks(g, n, t, i) && Shares(g, n, t, g.core[n].commit)
    ensures P.Inv(h) && P.StepBy(g, h, n) && h.core[n] == g.core[n].(log := g.leaderLog[t][..i], commit := i)
    ensures h.leaderOf == g.leaderOf && h.leaderLog == g.leaderLog && Shares(h, n, t, i)
  {
    hide P.Inv;
    var lead := g.leaderLog[t];
    assert lead[..i][..g.core[n].commit] == lead[..g.core[n].commit];
    var m := PS.Accept(g, n, lead[..i]);
    LeaderLogStays(g, m, n, t, i);
    PS.SameCommit(m, lead, lead[..i], i, t);
    h := PS.AdvanceCommit(m, n, i);
    P.StepByTransitive(g, m, h, n);
  }

  /** A committed prefix of the leader's log agrees with the member's own committed prefix. */
  lemma SnapshotAgrees(boot: Replicated, g: P.Global, n: NodeId, s: State, sm: Replicated, from: NodeId, req: Message)
    requires P.Inv(g) && NodeOk(boot, g, n, s, sm)
    requires req.InstallSnapshot? && MsgOk(boot, g, from, n, req)
    ensures Shares(g, n, req.term, Min(req.lastIncludedIndex, s.commitIndex))
  {
    hide P.Inv, P.LeadersOk, P.Complete, P.Committed, NodeOk;
    Unpack(boot, g, n, s, sm);
    SnapshotWithin(boot, g, n, from, req);
    OwnCommitted(g, n);
    var i, lead, log := req.lastIncludedIndex, g.leaderLog[req.term], g.core[n].log;
    if i <= s.commitIndex {
      P.CommittedAgree(g, lead, i, req.term, log, s.commitIndex, s.currentTerm);
    } else {
      P.CommittedAgree(g, log, s.commitIndex, s.currentTerm, lead, i, req.term);
    }
  }

  lemma OwnCommitted(g: P.Global, n: NodeId)
    requires P.Inv(g) && n in g.ids
    ensures P.WellFormed(g) && P.LeadersOk(g) && P.Complete(g)
    ensures P.Committed(g, g.core[n].log, g.core[n].commit, g.core[n].term)
  {
  }

  /** The boundary test of an install decides whether the log already holds the snapshot's prefix. */
  lemma BoundaryTest(g: P.Global, s: State, full: seq<Entry>, lead: seq<Entry>, x: nat, y: nat, i: nat)
    requires P.WellFormed(g) && P.GoodLog(g, full, x) && P.GoodLog(g, lead, y) && Holds(s, full)
    requires s.commitIndex < i <= |lead|
    ensures TermAt(s, i) == TermOf(lead, i) && i <= LastIndex(s) <==> lead[..i] <= full
  {
    if i <= |full| {
      SpliceMatches(g, s, full, lead, i - 1, x, y);
      if lead[..i] <= full {
        assert full[i - 1] == lead[..i][i - 1];
      }
    }
  }

  lemma LogsGood(g: P.Global, n: NodeId, t: nat)
    requires P.Inv(g) && n in g.ids && t in g.leaderOf
    ensures P.GoodLog(g, g.core[n].log, g.core[n].term) && P.GoodLog(g, g.leaderLog[t], t)
  {
  }

  lemma InstallOk(boot: Replicated, g: P.Global, n: NodeId, s: State, sm: Replicated, from: NodeId, req: Message)
    returns (h: P.Global)
    requires P.Inv(g) && NodeOk(boot, g, n, s, sm) && s.role == Follower
    requires req.InstallSnapshot? && MsgOk(boot, g, from, n, req) && req.term == s.currentTerm
    requires req.lastIncludedIndex > s.commitIndex
    ensures Moved(boot, g, h, n, Install(s, req), sm)
    ensures h.leaderOf == g.leaderOf && Shares(h, n, req.term, req.lastIncludedIndex)
  {
    hide P.Inv, NodeOk, P.GoodLog, P.StepBy, P.Committed, Install;
    var i := req.lastIncludedIndex;
    Unpack(boot, g, n, s, sm);
    SnapshotWithin(boot, g, n, from, req);
    LogsGood(g, n, req.term);
    SnapshotAgrees(boot, g, n, s, sm, from, req);
    BoundaryTest(g, s, g.core[n].log, g.leaderLog[req.term], g.core[n].term, req.term, i);
    if g.leaderLog[req.term][..i] <= g.core[n].log {
      h := InstallKeepsOk(boot, g, n, s, sm, from, req);
    } else {
      InstallClears(s, req);
      h := InstallReplacesOk(boot, g, n, s, sm, from, req);
    }
  }

  lemma SnapshotWithin(boot: Replicated, g: P.Global, n: NodeId, from: NodeId, req: Message)
    requires P.WellFormed(g) && req.InstallSnapshot? && MsgOk(boot, g, from, n, req)
    ensures req.term in g.leaderOf && req.term in g.leaderLog && req.lastIncludedIndex <= |g.leaderLog[req.term]|
    ensures req.lastIncludedTerm == TermOf(g.leaderLog[req.term], req.lastIncludedIndex)
  {
  }

  lemma InstallClears(s: State, req: Message)
    requires req.InstallSnapshot? && req.lastIncludedIndex > s.baseIndex
    requires !(TermAt(s, req.lastIncludedIndex) == req.lastIncludedTerm && req.lastIncludedIndex <= LastIndex(s))
    ensures Install(s, req).log == []
  {
  }

  /** A member that holds the snapshot's prefix may say so. */
  lemma AckSnapshotOk(boot: Replicated, g: P.Global, n: NodeId, s: State, sm: Replicated, from: NodeId, i: nat)
    returns (h: P.Global)
    requires P.Inv(g) && NodeOk(boot, g, n, s, sm) && s.role == Follower
    requires s.currentTerm in g.leaderOf && Shares(g, n, s.currentTerm, i)
    ensures Moved(boot, g, h, n, Send(s, from, InstallSnapshotResp(s.currentTerm, true, i)), sm)
  {
    hide P.Inv, NodeOk;
    h := AckOk(boot, g, n, s, sm, i);
    Unpack(boot, h, n, s, sm);
    SendOk(boot, h, n, s, sm, from, InstallSnapshotResp(s.currentTerm, true, i));
  }

  lemma AcceptSnapshotOk(boot: Replicated, g: P.Global, n: NodeId, b: State, sm: Replicated, from: NodeId, req: Message)
    returns (h: P.Global)
    requires P.Inv(g) && NodeOk(boot, g, n, b, sm) && b.role == Follower
    requires req.InstallSnapshot? && MsgOk(boot, g, from, n, req) && req.term == b.currentTerm
    ensures Moved(boot, g, h, n, AcceptSnapshot(b, from, req), sm)
  {
    hide P.Inv, NodeOk, P.StepBy;
    Unpack(boot, g, n, b, sm);
    if req.lastIncludedIndex <= b.commitIndex {
      SnapshotAgrees(boot, g, n, b, sm, from, req);
      h := AckSnapshotOk(boot, g, n, b, sm, from, req.lastIncludedIndex);
    } else {
      var m := InstallOk(boot, g, n, b, sm, from, req);
      h := AckSnapshotOk(boot, m, n, Install(b, req), sm, from, req.lastIncludedIndex);
      P.StepByTransitive(g, m, h, n);
    }
  }

  lemma HandleInstallSnapshotOk(boot: Replicated, g: P.Global, n: NodeId, s: State, sm: Replicated, from: NodeId,
                                req: Message)
    returns (h: P.Global)
    requires P.Inv(g) && NodeOk(boot, g, n, s, sm)
    requires req.InstallSnapshot? && MsgOk(boot, g, from, n, req)
    ensures Moved(boot, g, h, n, HandleInstallSnapshot(s, from, req), sm)
  {
    hide P.Inv, NodeOk, MsgOk, P.StepBy;
    Unpack(boot, g, n, s, sm);
    StayPut(g, n);
    h := g;
    if req.term < s.currentTerm {
      RefusalOk(boot, g, n, s, sm, from, InstallSnapshotResp(s.currentTerm, false, 0));
      return;
    }
    var a := Adopt(s, req.term);
    h := AdoptOk(boot, g, n, s, sm, req.term);
    Unpack(boot, h, n, a, sm);
    if !SnapshotMetadataIsValid(req) {
      RefusalOk(boot, h, n, a, sm, from, InstallSnapshotResp(a.currentTerm, false, 0));
      return;
    }
    var m := BecomeFollowerOk(boot, h, n, a, sm, req.term, Some(from));
    var b := BecomeFollower(a, req.term, Some(from));
    MsgOkStays(boot, g, m, n, from, n, req);
    h := AcceptSnapshotOk(boot, m, n, b, sm, from, req);
    P.StepByTransitive(g, m, h, n);
  }

  // ---- replies to a leader ----------------------------------------------

  function MatchSet(ps: seq<NodeId>, matched: map<NodeId, nat>, i: nat): set<NodeId> {
    set p | p in ps && Get(matched, p, 0) >= i
  }

  lemma {:induction false} MatchingIsCount(ps: seq<NodeId>, matched: map<NodeId, nat>, i: nat)
    requires Distinct(ps)
    ensures Matching(ps, matched, i) == |MatchSet(ps, matched, i)|
  {
    if ps == [] {
      assert MatchSet(ps, matched, i) == {};
    } else {
      var k := |ps| - 1;
      MatchingIsCount(ps[..k], matched, i);
      var rest := MatchSet(ps[..k], matched, i);
      assert forall p :: p in ps <==> p in ps[..k] || p == ps[k];
      assert ps[k] !in rest;
      hide Get;
      if Get(matched, ps[k], 0) >= i {
        assert MatchSet(ps, matched, i) == rest + {ps[k]};
      } else {
        assert MatchSet(ps, matched, i) == rest;
      }
    }
  }

  lemma CommittableQuorum(g: P.Global, n: NodeId, s: State, i: nat)
    requires GroupOk(g, n, s) && 1 + Matching(s.peers, s.matchIndex, i) >= Quorum(s)
    ensures P.Quorum(g.ids, MatchSet(s.peers, s.matchIndex, i) + {n})
  {
    MatchingIsCount(s.peers, s.matchIndex, i);
    GroupSize(g, n, s);
    assert n !in MatchSet(s.peers, s.matchIndex, i);
  }

  lemma CommittableAcked(g: P.Global, n: NodeId, s: State, i: nat)
    requires P.WellFormed(g) && n in g.ids && LeadingOk(g, n, s) && 0 < i <= |g.core[n].log|
    ensures P.AckedByAll(g, MatchSet(s.peers, s.matchIndex, i) + {n}, s.currentTerm, i)
  {
    var t := s.currentTerm;
    forall p | p in MatchSet(s.peers, s.matchIndex, i) + {n} ensures P.Acked(g, p, t, i) {
      if p == n {
        AckedBelow(g, n, t, |g.core[n].log|, i);
      } else {
        AckedBelow(g, p, t, s.matchIndex[p], i);
      }
    }
  }

  /** A committable index is chosen: its entry is of this term and a quorum acknowledged it. */
  lemma CommittableChosen(boot: Replicated, g: P.Global, n: NodeId, s: State, sm: Replicated, i: nat)
    requires NodeOk(boot, g, n, s, sm) && s.role == Leader
    requires s.commitIndex < i <= LastIndex(s) && Committable(s, i)
    ensures P.Committed(g, g.core[n].log, i, s.currentTerm)
  {
    CommittableQuorum(g, n, s, i);
    CommittableAcked(g, n, s, i);
    var t := s.currentTerm;
    assert P.Own(g, t, i);
    hide P.AckedByAll, P.Quorum, NodeOk;
    assert P.Chosen(g, t, i);
    assert P.CommitWitness(g, g.core[n].log, i, t, t, i);
  }

  lemma AckedBelow(g: P.Global, p: NodeId, t: nat, j: nat, i: nat)
    requires P.Acked(g, p, t, j) && i <= j
    ensures P.Acked(g, p, t, i)
  {
    var k :| j <= k && (p, t, k) in g.acks;
  }

  lemma MaybeAdvanceCommitOk(boot: Replicated, g: P.Global, n: NodeId, s: State, sm: Replicated) returns (h: P.Global)
    requires P.Inv(g) && NodeOk(boot, g, n, s, sm) && s.role == Leader
    ensures Moved(boot, g, h, n, MaybeAdvanceCommit(s), sm)
  {
    hide P.Inv, NodeOk;
    Unpack(boot, g, n, s, sm);
    var c := HighestCommittable(s, LastIndex(s));
    if c > s.commitIndex {
      CommittableChosen(boot, g, n, s, sm, c);
    }
    h := FollowCommitOk(boot, g, n, s, sm, c);
  }

  lemma MatchedOk(boot: Replicated, g: P.Global, n: NodeId, s: State, sm: Replicated, from: NodeId, acknowledged: nat)
    requires NodeOk(boot, g, n, s, sm) && s.role == Leader && acknowledged <= |g.core[n].log|
    requires acknowledged > 0 ==> P.Acked(g, from, s.currentTerm, acknowledged)
    ensures var matched := Max(acknowledged, Get(s.matchIndex, from, 0));
            NodeOk(boot, g, n, s.(matchIndex := s.matchIndex[from := matched],
                                  nextIndex := s.nextIndex[from := matched + 1]), sm)
  {
  }

  /** Nobody acknowledges more than the leader has. */
  lemma AckedWithin(g: P.Global, p: NodeId, t: nat, i: nat)
    requires P.WellFormed(g) && P.AcksOk(g) && P.Acked(g, p, t, i)
    ensures t in g.leaderOf && i <= |g.leaderLog[t]|
  {
    var j :| i <= j && (p, t, j) in g.acks;
  }

  lemma AckedWithinInv(g: P.Global, p: NodeId, t: nat, i: nat)
    requires P.Inv(g) && P.Acked(g, p, t, i)
    ensures t in g.leaderOf && t in g.leaderLog && i <= |g.leaderLog[t]|
  {
    AckedWithin(g, p, t, i);
  }

  lemma RecordMatchOk(boot: Replicated, g: P.Global, n: NodeId, s: State, sm: Replicated, from: NodeId,
                      acknowledged: nat)
    returns (h: P.Global)
    requires P.Inv(g) && NodeOk(boot, g, n, s, sm) && s.role == Leader
    requires acknowledged > 0 ==> P.Acked(g, from, s.currentTerm, acknowledged)
    ensures Moved(boot, g, h, n, RecordMatch(s, from, acknowledged), sm)
  {
    hide P.Inv, NodeOk, P.StepBy, MaybeAdvanceCommit, BroadcastAppend;
    var matched := Max(acknowledged, Get(s.matchIndex, from, 0));
    var a := s.(matchIndex := s.matchIndex[from := matched], nextIndex := s.nextIndex[from := matched + 1]);
    LeaderParts(boot, g, n, s, sm);
    if acknowledged > 0 {
      AckedWithinInv(g, from, s.currentTerm, acknowledged);
    }
    MatchedOk(boot, g, n, s, sm, from, acknowledged);
    h := MaybeAdvanceCommitOk(boot, g, n, a, sm);
    var b := MaybeAdvanceCommit(a);
    LeadsOn(a);
    if b.commitIndex > a.commitIndex {
      BroadcastOk(boot, h, n, b, sm);
    }
  }

  lemma RewoundOk(boot: Replicated, g: P.Global, n: NodeId, s: State, sm: Replicated, from: NodeId, next: nat)
    requires NodeOk(boot, g, n, s, sm) && s.role == Leader && 1 <= next <= Get(s.nextIndex, from, 1)
    ensures NodeOk(boot, g, n, s.(nextIndex := s.nextIndex[from := next]), sm)
  {
  }

  lemma NextPositive(boot: Replicated, g: P.Global, n: NodeId, s: State, sm: Replicated, from: NodeId)
    requires NodeOk(boot, g, n, s, sm) && s.role == Leader
    ensures 1 <= Get(s.nextIndex, from, 1)
  {
  }

  lemma RewindOk(boot: Replicated, g: P.Global, n: NodeId, s: State, sm: Replicated, from: NodeId, hint: nat)
    requires P.Inv(g) && NodeOk(boot, g, n, s, sm) && s.role == Leader
    ensures NodeOk(boot, g, n, Rewind(s, from, hint), sm)
  {
    hide NodeOk;
    NextPositive(boot, g, n, s, sm, from);
    var previous := Get(s.nextIndex, from, 1);
    var next := Min(hint + 1, Max(Minus(previous, 1), 1));
    RewoundOk(boot, g, n, s, sm, from, Min(next, previous));
    if next < previous {
      SendAppendOk(boot, g, n, s.(nextIndex := s.nextIndex[from := next]), sm, from);
    }
  }

  lemma HandleAppendRespOk(boot: Replicated, g: P.Global, n: NodeId, s: State, sm: Replicated, from: NodeId,
                           resp: Message)
    returns (h: P.Global)
    requires P.Inv(g) && NodeOk(boot, g, n, s, sm)
    requires resp.AppendEntriesResp? && MsgOk(boot, g, from, n, resp)
    ensures Moved(boot, g, h, n, HandleAppendResp(s, from, resp), sm)
  {
    hide P.Inv, NodeOk, P.StepBy;
    Unpack(boot, g, n, s, sm);
    StayPut(g, n);
    h := g;
    if resp.term > s.currentTerm {
      h := BecomeFollowerOk(boot, g, n, s, sm, resp.term, None);
    } else if s.role == Leader && resp.term == s.currentTerm {
      var a := s.(ackedSinceCheck := s.ackedSinceCheck + {from});
      CosmeticOk(boot, g, n, s, a, sm);
      if resp.success {
        AckedBelow(g, from, s.currentTerm, resp.matchIndex, Min(resp.matchIndex, LastIndex(a)));
        h := RecordMatchOk(boot, g, n, a, sm, from, Min(resp.matchIndex, LastIndex(a)));
      } else {
        RewindOk(boot, g, n, a, sm, from, resp.matchIndex);
      }
    }
  }

  lemma HandleInstallSnapshotRespOk(boot: Replicated, g: P.Global, n: NodeId, s: State, sm: Replicated, from: NodeId,
                                    resp: Message) returns (h: P.Global)
    requires P.Inv(g) && NodeOk(boot, g, n, s, sm)
    requires resp.InstallSnapshotResp? && MsgOk(boot, g, from, n, resp)
    ensures Moved(boot, g, h, n, HandleInstallSnapshotResp(s, from, resp), sm)
  {
    hide P.Inv, NodeOk, P.StepBy;
    Unpack(boot, g, n, s, sm);
    StayPut(g, n);
    h := g;
    if resp.term > s.currentTerm {
      h := BecomeFollowerOk(boot, g, n, s, sm, resp.term, None);
    } else if s.role == Leader && resp.term == s.currentTerm {
      var a := s.(ackedSinceCheck := s.ackedSinceCheck + {from});
      CosmeticOk(boot, g, n, s, a, sm);
      if resp.success {
        var sent := Get(a.snapshotInflight, from, 0);
        var b := a.(snapshotInflight := a.snapshotInflight - {from});
        CosmeticOk(boot, g, n, a, b, sm);
        AckedBelow(g, from, s.currentTerm, resp.lastIncludedIndex, Min(resp.lastIncludedIndex, sent));
        h := RecordMatchOk(boot, g, n, b, sm, from, Min(resp.lastIncludedIndex, sent));
      }
    }
  }

  // ---- proposals and hand-over ------------------------------------------

  lemma PushedOk(boot: Replicated, g: P.Global, h: P.Global, n: NodeId, s: State, sm: Replicated, e: Entry)
    requires NodeOk(boot, g, n, s, sm) && s.role == Leader && P.StepBy(g, h, n)
    requires h.core[n] == g.core[n].(log := g.core[n].log + [e])
    requires var t := s.currentTerm;
             t in h.leaderOf && h.leaderOf[t] == n && h.leaderLog[t] == h.core[n].log
             && P.Acked(h, n, t, |h.core[n].log|)
    ensures NodeOk(boot, h, n, s.(log := s.log + [e], dirty := true), sm)
  {
    PushHolds(boot, s, g.core[n].log, sm, e);
    OutOkStays(boot, g, h, n, n, s.out);
    forall p | p in s.matchIndex && s.matchIndex[p] > 0 ensures P.Acked(h, p, s.currentTerm, s.matchIndex[p]) {
      PS.AckedStays(g, h, n, p, s.currentTerm, s.matchIndex[p]);
    }
  }

  lemma LeaderParts(boot: Replicated, g: P.Global, n: NodeId, s: State, sm: Replicated)
    requires NodeOk(boot, g, n, s, sm) && s.role == Leader
    ensures s.currentTerm > 0 && s.currentTerm in g.leaderOf && g.leaderOf[s.currentTerm] == n
    ensures s.currentTerm in g.leaderLog && g.leaderLog[s.currentTerm] == g.core[n].log
  {
  }

  lemma LeadsOn(s: State)
    ensures MaybeAdvanceCommit(s).role == s.role
  {
  }

  lemma ProposeOk(boot: Replicated, g: P.Global, n: NodeId, s: State, sm: Replicated, command: Command)
    returns (h: P.Global)
    requires P.Inv(g) && NodeOk(boot, g, n, s, sm)
    ensures Moved(boot, g, h, n, Propose(s, command), sm)
  {
    hide P.Inv, NodeOk, P.StepBy, MaybeAdvanceCommit, BroadcastAppend;
    Unpack(boot, g, n, s, sm);
    StayPut(g, n);
    h := g;
    if s.role == Leader {
      var e := Entry(s.currentTerm, LastIndex(s) + 1, Some(command));
      var a := s.(log := s.log + [e], dirty := true);
      var m := ProposedOk(boot, g, n, s, sm, e);
      h := MaybeAdvanceCommitOk(boot, m, n, a, sm);
      LeadsOn(a);
      BroadcastOk(boot, h, n, MaybeAdvanceCommit(a), sm);
      P.StepByTransitive(g, m, h, n);
    }
  }

  lemma ProposedOk(boot: Replicated, g: P.Global, n: NodeId, s: State, sm: Replicated, e: Entry) returns (m: P.Global)
    requires P.Inv(g) && NodeOk(boot, g, n, s, sm) && s.role == Leader
    requires e.term == s.currentTerm && e.index == LastIndex(s) + 1
    ensures Moved(boot, g, m, n, s.(log := s.log + [e], dirty := true), sm)
  {
    hide P.Inv, NodeOk, P.StepBy;
    Unpack(boot, g, n, s, sm);
    LeaderParts(boot, g, n, s, sm);
    m := LeaderPush(g, n, e);
    PushedOk(boot, g, m, n, s, sm, e);
  }

  lemma CompactOk(boot: Replicated, g: P.Global, n: NodeId, s: State, sm: Replicated, index: nat)
    requires NodeOk(boot, g, n, s, sm) && !s.pendingRestore && index == s.lastApplied
    ensures NodeOk(boot, g, n, Compact(s, index, sm), sm)
  {
    var full := g.core[n].log;
    if s.baseIndex < index {
      assert full[s.baseIndex..][index - s.baseIndex..] == full[index..];
      assert TermAt(s, index) == TermOf(full, index);
    }
  }

  function ApplyAll(st: Replicated, batch: seq<(nat, Command)>): Replicated {
    if batch == [] then st else Apply(ApplyAll(st, batch[..|batch| - 1]), batch[|batch| - 1].1)
  }

  lemma ApplyPushed(st: Replicated, batch: seq<(nat, Command)>, last: (nat, Command))
    ensures ApplyAll(st, batch + [last]) == Apply(ApplyAll(st, batch), last.1)
  {
    assert (batch + [last])[..|batch|] == batch;
  }

  lemma ReplayLast(st: Replicated, full: seq<Entry>, from: nat, upto: nat)
    requires from < upto <= |full|
    ensures Replay(st, full[from..upto]) == ApplyEntry(Replay(st, full[from..upto - 1]), full[upto - 1])
  {
    var seg := full[from..upto];
    assert seg[..|seg| - 1] == full[from..upto - 1];
  }

  lemma BatchLast(s: State, full: seq<Entry>, from: nat, upto: nat)
    requires Holds(s, full) && s.baseIndex <= from < upto <= |full|
    ensures Batch(s, from, upto) ==
            match full[upto - 1].command
            case Some(c) => Batch(s, from, upto - 1) + [(upto, c)]
            case None => Batch(s, from, upto - 1)
  {
    var k := upto - s.baseIndex - 1;
    assert s.log[k] == full[upto - 1];
    assert Batch(s, from, upto - 1) + [] == Batch(s, from, upto - 1);
  }

  /** Applying a batch is replaying the stretch of the log it stands for. */
  lemma {:induction false} BatchReplays(s: State, full: seq<Entry>, st: Replicated, from: nat, upto: nat)
    requires Holds(s, full) && s.baseIndex <= from <= upto <= |full|
    ensures ApplyAll(st, Batch(s, from, upto)) == Replay(st, full[from..upto])
    decreases upto
  {
    if upto > from {
      hide Apply, ApplyAll, Replay, Batch;
      BatchReplays(s, full, st, from, upto - 1);
      BatchLast(s, full, from, upto);
      ReplayLast(st, full, from, upto);
      if full[upto - 1].command.Some? {
        ApplyPushed(st, Batch(s, from, upto - 1), (upto, full[upto - 1].command.value));
      }
    }
  }

  /** The driver's part: reset to the snapshot if asked to, then apply the batch. */
  function Deliver(sm: Replicated, ready: Ready): Replicated {
    ApplyAll(if ready.restore.Some? then ready.restore.value else sm, ready.committed)
  }

  /** What is delivered brings the applied state up to the commit index. */
  lemma DeliverReplays(boot: Replicated, s: State, full: seq<Entry>, sm: Replicated)
    requires Holds(s, full) && AppliedOk(boot, full, s, sm)
    ensures Deliver(sm, TakeReady(s).0) == Replay(boot, full[..s.commitIndex])
  {
    var st := if s.pendingRestore then s.snapshot.value else sm;
    BatchReplays(s, full, st, s.lastApplied, s.commitIndex);
    ReplayConcat(boot, full[..s.lastApplied], full[s.lastApplied..s.commitIndex]);
    assert full[..s.lastApplied] + full[s.lastApplied..s.commitIndex] == full[..s.commitIndex];
  }

  lemma TakeReadyOk(boot: Replicated, g: P.Global, n: NodeId, s: State, sm: Replicated)
    requires NodeOk(boot, g, n, s, sm)
    ensures NodeOk(boot, g, n, TakeReady(s).1, Deliver(sm, TakeReady(s).0))
    ensures OutOk(boot, g, n, TakeReady(s).0.messages)
    ensures TakeReady(s).1.lastApplied == s.commitIndex
  {
    DeliverReplays(boot, s, g.core[n].log, sm);
    hide Deliver, Replay;
  }

  /** Recovery from what was saved: the same log, an applied state rebuilt from the snapshot. */
  lemma RestartOk(boot: Replicated, g: P.Global, n: NodeId, s: State, sm: Replicated, draws: nat -> nat)
    requires NodeOk(boot, g, n, s, sm)
    ensures NodeOk(boot, g, n, New(s.id, s.peers, s.cfg, draws, Durable(s)),
                   if s.snapshot.Some? then s.snapshot.value else boot)
  {
    assert g.core[n].log[..0] == [];
  }
}
