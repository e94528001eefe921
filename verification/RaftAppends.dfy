/** Appends, snapshots, acknowledgements and commitment keep a member in agreement with the history. */
module RaftAppends {
  import opened Model
  import opened RaftSpec
  import opened RaftNode
  import opened RaftElections
  import opened RaftReplication
  import P = Protocol
  import PS = ProtocolSteps

  // ---- a follower's log -------------------------------------------------

  /** Replay of what is applied or compacted depends only on the committed prefix. */
  lemma AppliedKept(boot: Replicated, a: seq<Entry>, b: seq<Entry>, s: State, r: State, sm: Replicated)
    requires Holds(s, a) && AppliedOk(boot, a, s, sm) && Holds(r, b)
    requires s.commitIndex <= |b| && b[..s.commitIndex] == a[..s.commitIndex]
    requires r.baseIndex == s.baseIndex && r.snapshot == s.snapshot && r.lastApplied == s.lastApplied
    requires r.pendingRestore == s.pendingRestore && s.commitIndex <= r.commitIndex
    ensures AppliedOk(boot, b, r, sm)
  {
    P.PrefixCut(a, b, s.commitIndex, s.baseIndex);
    P.PrefixCut(a, b, s.commitIndex, s.lastApplied);
  }

  lemma ReplacedOk(boot: Replicated, g: P.Global, h: P.Global, n: NodeId, s: State, sm: Replicated, upto: nat)
    requires NodeOk(boot, g, n, s, sm) && s.role == Follower
    requires var t := s.currentTerm; t in g.leaderOf && s.commitIndex <= upto <= |g.leaderLog[t]|
    requires var lead := g.leaderLog[s.currentTerm];
             lead[..s.commitIndex] == g.core[n].log[..s.commitIndex]
             && h == PS.SetCore(g, n, g.core[n].(log := lead[..upto])) && P.StepBy(g, h, n)
    ensures NodeOk(boot, h, n, s.(log := g.leaderLog[s.currentTerm][s.baseIndex..upto], dirty := true), sm)
  {
    var lead := g.leaderLog[s.currentTerm];
    var r := s.(log := lead[s.baseIndex..upto], dirty := true);
    assert lead[..upto][s.baseIndex..] == lead[s.baseIndex..upto];
    assert lead[..upto][..s.commitIndex] == lead[..s.commitIndex];
    assert TermOf(lead[..upto], s.baseIndex) == TermOf(g.core[n].log, s.baseIndex) by {
      P.PrefixCut(lead, g.core[n].log, s.commitIndex, s.baseIndex);
    }
    assert Holds(r, lead[..upto]);
    AppliedKept(boot, g.core[n].log, lead[..upto], s, r, sm);
    OutOkStays(boot, g, h, n, n, s.out);
  }

  lemma AcceptOk(boot: Replicated, g: P.Global, n: NodeId, s: State, sm: Replicated, upto: nat) returns (h: P.Global)
    requires P.Inv(g) && NodeOk(boot, g, n, s, sm) && s.role == Follower
    requires var t := s.currentTerm; t in g.leaderOf && s.commitIndex <= upto <= |g.leaderLog[t]|
    requires var lead := g.leaderLog[s.currentTerm];
             lead[..s.commitIndex] == g.core[n].log[..s.commitIndex] && !(lead[..upto] <= g.core[n].log)
    ensures s.baseIndex <= upto
    ensures Moved(boot, g, h, n, s.(log := g.leaderLog[s.currentTerm][s.baseIndex..upto], dirty := true), sm)
    ensures h.leaderOf == g.leaderOf && h.leaderLog == g.leaderLog
    ensures h.core[n].log == g.leaderLog[s.currentTerm][..upto]
  {
    hide P.Inv, NodeOk;
    Unpack(boot, g, n, s, sm);
    var lead := g.leaderLog[s.currentTerm];
    assert lead[..upto][..s.commitIndex] == lead[..s.commitIndex];
    h := PS.Accept(g, n, lead[..upto]);
    ReplacedOk(boot, g, h, n, s, sm, upto);
  }

  lemma AckOk(boot: Replicated, g: P.Global, n: NodeId, s: State, sm: Replicated, j: nat) returns (h: P.Global)
    requires P.Inv(g) && NodeOk(boot, g, n, s, sm) && s.role != Leader && s.role != Candidate
    requires s.currentTerm in g.leaderOf && j <= |g.core[n].log| && j <= |g.leaderLog[s.currentTerm]|
    requires g.core[n].log[..j] == g.leaderLog[s.currentTerm][..j]
    ensures Moved(boot, g, h, n, s, sm) && P.Acked(h, n, s.currentTerm, j)
    ensures h.core == g.core && h.leaderOf == g.leaderOf && h.leaderLog == g.leaderLog
  {
    hide P.Inv;
    h := PS.Acknowledge(g, n, j);
    assert (n, s.currentTerm, j) in h.acks;
    OutOkStays(boot, g, h, n, n, s.out);
  }

  lemma CommitMovedOk(boot: Replicated, g: P.Global, h: P.Global, n: NodeId, s: State, sm: Replicated, c: nat)
    requires NodeOk(boot, g, n, s, sm) && s.commitIndex <= c <= |g.core[n].log|
    requires h == PS.SetCore(g, n, g.core[n].(commit := c)) && P.StepBy(g, h, n)
    ensures NodeOk(boot, h, n, s.(commitIndex := c, dirty := true), sm)
  {
    OutOkStays(boot, g, h, n, n, s.out);
    if s.role == Leader {
      PS.AckedStays(g, h, n, n, s.currentTerm, |g.core[n].log|);
      forall p | p in s.matchIndex && s.matchIndex[p] > 0 ensures P.Acked(h, p, s.currentTerm, s.matchIndex[p]) {
        PS.AckedStays(g, h, n, p, s.currentTerm, s.matchIndex[p]);
      }
    }
  }

  /** Following a commit index is sound when the log below it is committed. */
  lemma FollowCommitOk(boot: Replicated, g: P.Global, n: NodeId, s: State, sm: Replicated, c: nat) returns (h: P.Global)
    requires P.Inv(g) && NodeOk(boot, g, n, s, sm)
    requires P.WellFormed(g) && c > s.commitIndex ==> P.Committed(g, g.core[n].log, c, s.currentTerm)
    ensures Moved(boot, g, h, n, FollowCommit(s, c), sm)
    ensures h.acks == g.acks && h.leaderOf == g.leaderOf && h.core[n].log == g.core[n].log
  {
    hide P.Inv, NodeOk;
    Unpack(boot, g, n, s, sm);
    StayPut(g, n);
    h := g;
    if c > s.commitIndex {
      h := PS.AdvanceCommit(g, n, c);
      CommitMovedOk(boot, g, h, n, s, sm, c);
    }
  }

  lemma CommittedCopy(g: P.Global, log: seq<Entry>, lead: seq<Entry>, confirmed: nat, commit: nat, t: nat)
    requires P.WellFormed(g) && P.Committed(g, lead, commit, t)
    requires confirmed <= |log| && confirmed <= |lead| && log[..confirmed] == lead[..confirmed]
    ensures P.Committed(g, log, Min(commit, confirmed), t)
  {
    var c := Min(commit, confirmed);
    CommittedBelow(g, lead, commit, c, t);
    P.PrefixCut(lead, log, confirmed, c);
    PS.SameCommit(g, lead, log, c, t);
  }

  /** A matching prefix, wherever it starts, is shared with the leader. */
  lemma PrefixMatches(g: P.Global, n: NodeId, s: State, lead: seq<Entry>, prev: nat, y: nat)
    requires P.WellFormed(g) && P.LogsOk(g) && n in g.ids && CoreOk(g, n, s)
    requires P.GoodLog(g, lead, y) && prev <= |lead| && prev <= LastIndex(s)
    requires prev > 0 ==> TermAt(s, prev) == TermOf(lead, prev)
    ensures g.core[n].log[..prev] == lead[..prev]
  {
    if prev > 0 {
      SpliceMatches(g, s, g.core[n].log, lead, prev - 1, g.core[n].term, y);
    }
  }

  /** `sp` is the outcome of merging the first `upto` entries of its leader's log into the log of `n`. */
  ghost predicate Merges(g: P.Global, n: NodeId, s: State, upto: nat, sp: Spliced) {
    && n in g.core && s.currentTerm in g.leaderOf && s.currentTerm in g.leaderLog
    && upto <= |g.leaderLog[s.currentTerm]| && Holds(s, g.core[n].log)
    && SpliceResult(s, g.core[n].log, g.leaderLog[s.currentTerm], upto, sp)
  }

  lemma SpliceShapeOf(boot: Replicated, g: P.Global, n: NodeId, s: State, sm: Replicated, from: NodeId, req: Message)
    requires P.WellFormed(g) && P.LogsOk(g) && NodeOk(boot, g, n, s, sm)
    requires req.AppendEntries? && MsgOk(boot, g, from, n, req) && req.term == s.currentTerm
    requires req.prevLogIndex <= LastIndex(s)
    requires req.prevLogIndex > 0 ==> TermAt(s, req.prevLogIndex) == req.prevLogTerm
    ensures Merges(g, n, s, req.prevLogIndex + |req.entries|, Splice(s, req.entries, req.prevLogIndex))
  {
    hide Splice, SpliceResult, TermAt, P.GoodLog;
    Unpack(boot, g, n, s, sm);
    AppendParts(boot, g, n, from, req);
    var lead := g.leaderLog[req.term];
    PrefixMatches(g, n, s, lead, req.prevLogIndex, req.term);
    SpliceShape(g, s, g.core[n].log, lead, req.entries, req.prevLogIndex, g.core[n].term, req.term);
  }

  /** An accepted splice ends in a log that agrees with the leader's up to the confirmed index. */
  lemma SpliceOk(boot: Replicated, g: P.Global, n: NodeId, s: State, sm: Replicated, upto: nat, sp: Spliced)
    returns (h: P.Global)
    requires P.Inv(g) && NodeOk(boot, g, n, s, sm) && s.role == Follower && sp.ok
    requires Merges(g, n, s, upto, sp)
    ensures Moved(boot, g, h, n, sp.state, sm) && sp.confirmed == upto
    ensures h.leaderOf == g.leaderOf && h.leaderLog == g.leaderLog
    ensures upto <= |h.core[n].log| && h.core[n].log[..upto] == h.leaderLog[s.currentTerm][..upto]
  {
    hide P.Inv, NodeOk;
    Unpack(boot, g, n, s, sm);
    StayPut(g, n);
    h := g;
    if !(g.leaderLog[s.currentTerm][..upto] <= g.core[n].log) {
      h := AcceptOk(boot, g, n, s, sm, upto);
    }
  }

  lemma FinishAppendOk(boot: Replicated, g: P.Global, n: NodeId, s: State, sm: Replicated, from: NodeId,
                       confirmed: nat, commit: nat) returns (h: P.Global)
    requires P.Inv(g) && NodeOk(boot, g, n, s, sm) && s.role == Follower
    requires s.currentTerm in g.leaderOf && confirmed <= |g.core[n].log|
    requires confirmed <= |g.leaderLog[s.currentTerm]|
    requires g.core[n].log[..confirmed] == g.leaderLog[s.currentTerm][..confirmed]
    requires P.Committed(g, g.leaderLog[s.currentTerm], commit, s.currentTerm)
    ensures Moved(boot, g, h, n,
                  Send(FollowCommit(s, Min(commit, confirmed)), from,
                       AppendEntriesResp(s.currentTerm, true, confirmed)), sm)
  {
    hide P.Inv, NodeOk, P.StepBy;
    Unpack(boot, g, n, s, sm);
    CommittedCopy(g, g.core[n].log, g.leaderLog[s.currentTerm], confirmed, commit, s.currentTerm);
    var m := AckOk(boot, g, n, s, sm, confirmed);
    PS.CommittedStays(g, m, n, g.core[n].log, Min(commit, confirmed), s.currentTerm, s.currentTerm);
    h := FollowCommitOk(boot, m, n, s, sm, Min(commit, confirmed));
    var a := FollowCommit(s, Min(commit, confirmed));
    Unpack(boot, h, n, a, sm);
    PS.AckedStays(m, h, n, n, s.currentTerm, confirmed);
    SendOk(boot, h, n, a, sm, from, AppendEntriesResp(s.currentTerm, true, confirmed));
    P.StepByTransitive(g, m, h, n);
  }

  lemma AcceptAppendOk(boot: Replicated, g: P.Global, n: NodeId, s: State, sm: Replicated, from: NodeId, req: Message)
    returns (h: P.Global)
    requires P.Inv(g) && NodeOk(boot, g, n, s, sm) && s.role == Follower
    requires req.AppendEntries? && MsgOk(boot, g, from, n, req) && req.term == s.currentTerm
    ensures Moved(boot, g, h, n, AcceptAppend(s, from, req), sm)
  {
    SpliceParts(g);
    hide P.Inv, NodeOk, P.LogsOk, SpliceResult, P.StepBy;
    Unpack(boot, g, n, s, sm);
    StayPut(g, n);
    h := g;
    var prev := req.prevLogIndex;
    if prev > LastIndex(s) {
      RefusalOk(boot, g, n, s, sm, from, AppendEntriesResp(s.currentTerm, false, LastIndex(s)));
    } else if prev > 0 && TermAt(s, prev) != req.prevLogTerm {
      RefusalOk(boot, g, n, s, sm, from, AppendEntriesResp(s.currentTerm, false, Minus(prev, 1)));
    } else {
      SpliceShapeOf(boot, g, n, s, sm, from, req);
      h := AcceptSpliceOk(boot, g, n, s, sm, from, req);
    }
  }

  lemma AppendParts(boot: Replicated, g: P.Global, n: NodeId, from: NodeId, req: Message)
    requires P.WellFormed(g) && req.AppendEntries? && MsgOk(boot, g, from, n, req)
    ensures req.term in g.leaderOf && req.prevLogIndex + |req.entries| <= |g.leaderLog[req.term]|
    ensures P.Committed(g, g.leaderLog[req.term], req.leaderCommit, req.term)
  {
  }

  lemma SpliceStaysInTerm(s: State, full: seq<Entry>, lead: seq<Entry>, upto: nat, sp: Spliced)
    requires Holds(s, full) && upto <= |lead| && SpliceResult(s, full, lead, upto, sp)
    ensures sp.state.currentTerm == s.currentTerm && sp.state.role == s.role && (!sp.ok ==> sp.state == s)
  {
  }

  lemma SpliceParts(g: P.Global)
    requires P.Inv(g)
    ensures P.WellFormed(g) && P.LogsOk(g)
  {
  }

  lemma AcceptSpliceOk(boot: Replicated, g: P.Global, n: NodeId, s: State, sm: Replicated, from: NodeId, req: Message)
    returns (h: P.Global)
    requires P.Inv(g) && NodeOk(boot, g, n, s, sm) && s.role == Follower
    requires req.AppendEntries? && MsgOk(boot, g, from, n, req) && req.term == s.currentTerm
    requires req.prevLogIndex <= LastIndex(s) && (req.prevLogIndex > 0 ==>
                                                  TermAt(s, req.prevLogIndex) == req.prevLogTerm)
    requires Merges(g, n, s, req.prevLogIndex + |req.entries|, Splice(s, req.entries, req.prevLogIndex))
    ensures Moved(boot, g, h, n, AcceptAppend(s, from, req), sm)
  {
    hide P.Inv, NodeOk, P.StepBy, P.Committed, Splice, TermAt, SpliceResult, MsgOk, Holds;
    Unpack(boot, g, n, s, sm);
    AppendParts(boot, g, n, from, req);
    StayPut(g, n);
    var sp := Splice(s, req.entries, req.prevLogIndex);
    SpliceStaysInTerm(s, g.core[n].log, g.leaderLog[s.currentTerm], req.prevLogIndex + |req.entries|, sp);
    if !sp.ok {
      h := g;
      RefusalOk(boot, g, n, s, sm, from, AppendEntriesResp(s.currentTerm, false, sp.confirmed));
    } else {
      var m := SpliceOk(boot, g, n, s, sm, req.prevLogIndex + |req.entries|, sp);
      LeaderLogStays(g, m, n, s.currentTerm, req.leaderCommit);
      h := FinishAppendOk(boot, m, n, sp.state, sm, from, sp.confirmed, req.leaderCommit);
      P.StepByTransitive(g, m, h, n);
    }
  }

  lemma HandleAppendOk(boot: Replicated, g: P.Global, n: NodeId, s: State, sm: Replicated, from: NodeId, req: Message)
    returns (h: P.Global)
    requires P.Inv(g) && NodeOk(boot, g, n, s, sm)
    requires req.AppendEntries? && MsgOk(boot, g, from, n, req)
    ensures Moved(boot, g, h, n, HandleAppend(s, from, req), sm)
  {
    hide P.Inv, NodeOk, MsgOk, P.StepBy;
    Unpack(boot, g, n, s, sm);
    StayPut(g, n);
    h := g;
    if req.term < s.currentTerm {
      RefusalOk(boot, g, n, s, sm, from, AppendEntriesResp(s.currentTerm, false, 0));
      return;
    }
    var a := Adopt(s, req.term);
    h := AdoptOk(boot, g, n, s, sm, req.term);
    Unpack(boot, h, n, a, sm);
    if !EntriesAreContiguous(req) {
      RefusalOk(boot, h, n, a, sm, from, AppendEntriesResp(a.currentTerm, false, LastIndex(a)));
      return;
    }
    var m := BecomeFollowerOk(boot, h, n, a, sm, req.term, Some(from));
    var b := BecomeFollower(a, req.term, Some(from));
    MsgOkStays(boot, g, m, n, from, n, req);
    h := AcceptAppendOk(boot, m, n, b, sm, from, req);
    P.StepByTransitive(g, m, h, n);
  }
}
