/** Votes, log replication, snapshots and commitment keep a member in agreement with the history. */
module RaftReplication {
  import opened Model
  import opened RaftSpec
  import opened RaftNode
  import opened RaftElections
  import opened RaftSplice
  import P = Protocol
  import PS = ProtocolSteps

  // ---- votes ------------------------------------------------------------

  lemma VoteTest(boot: Replicated, g: P.Global, n: NodeId, s: State, sm: Replicated, from: NodeId, req: Message)
    requires NodeOk(boot, g, n, s, sm)
    requires req.RequestVote? && !req.preVote && MsgOk(boot, g, from, n, req) && req.term == s.currentTerm
    requires LogOk(s, req.lastLogIndex, req.lastLogTerm)
    ensures (g.core[n].term, from) in g.candLog
    ensures PS.UpToDate(g.candLog[(g.core[n].term, from)], g.core[n].log)
  {
    LastTermOk(s, g.core[n].log);
  }

  lemma GrantVoteOk(boot: Replicated, g: P.Global, n: NodeId, s: State, sm: Replicated, from: NodeId, req: Message)
    returns (h: P.Global)
    requires P.Inv(g) && NodeOk(boot, g, n, s, sm) && s.role != Leader && s.role != Candidate
    requires req.RequestVote? && !req.preVote && MsgOk(boot, g, from, n, req) && req.term == s.currentTerm
    requires (s.votedFor.None? || s.votedFor == Some(from)) && LogOk(s, req.lastLogIndex, req.lastLogTerm)
    ensures Moved(boot, g, h, n, s.(votedFor := Some(from), dirty := true), sm)
    ensures (n, s.currentTerm, from) in h.votes
  {
    hide P.Inv, NodeOk, MsgOk;
    Unpack(boot, g, n, s, sm);
    VoteTest(boot, g, n, s, sm, from, req);
    h := PS.CastVote(g, n, from);
    VoteCastOk(boot, g, h, n, s, sm, from);
  }

  /** A leader or candidate has spent its vote on itself. */
  lemma VoteFree(boot: Replicated, g: P.Global, n: NodeId, s: State, sm: Replicated, from: NodeId)
    requires NodeOk(boot, g, n, s, sm) && from in s.peers
    requires s.votedFor.None? || s.votedFor == Some(from)
    ensures s.role != Leader && s.role != Candidate
  {
  }

  lemma RefusalOk(boot: Replicated, g: P.Global, n: NodeId, s: State, sm: Replicated, to: NodeId, msg: Message)
    requires NodeOk(boot, g, n, s, sm)
    requires (msg.RequestVoteResp? && (!msg.granted || msg.preVote)) || (msg.AppendEntriesResp? && !msg.success)
             || (msg.InstallSnapshotResp? && !msg.success)
    ensures NodeOk(boot, g, n, Send(s, to, msg), sm)
  {
    hide NodeOk;
    Unpack(boot, g, n, s, sm);
    SendOk(boot, g, n, s, sm, to, msg);
  }

  lemma AnswerVoteOk(boot: Replicated, g: P.Global, n: NodeId, a: State, sm: Replicated, from: NodeId, req: Message)
    returns (h: P.Global)
    requires P.Inv(g) && NodeOk(boot, g, n, a, sm) && from in a.peers
    requires req.RequestVote? && !req.preVote && MsgOk(boot, g, from, n, req) && req.term == a.currentTerm
    requires (a.votedFor.None? || a.votedFor == Some(from)) && LogOk(a, req.lastLogIndex, req.lastLogTerm)
    ensures Moved(boot, g, h, n,
                  Send(ResetTimer(a.(votedFor := Some(from), dirty := true)), from,
                       RequestVoteResp(a.currentTerm, true, false)), sm)
  {
    hide P.Inv, NodeOk, P.StepBy;
    VoteFree(boot, g, n, a, sm, from);
    h := GrantVoteOk(boot, g, n, a, sm, from, req);
    var b := a.(votedFor := Some(from), dirty := true);
    Unpack(boot, h, n, b, sm);
    CosmeticOk(boot, h, n, b, ResetTimer(b), sm);
    SendOk(boot, h, n, ResetTimer(b), sm, from, RequestVoteResp(a.currentTerm, true, false));
  }

  lemma AnswerOk(boot: Replicated, g: P.Global, n: NodeId, a: State, sm: Replicated, from: NodeId, req: Message)
    returns (h: P.Global)
    requires P.Inv(g) && NodeOk(boot, g, n, a, sm) && from in a.peers
    requires req.RequestVote? && MsgOk(boot, g, from, n, req)
    ensures Moved(boot, g, h, n, AnswerVote(a, from, req), sm)
  {
    hide P.Inv, NodeOk, MsgOk, P.StepBy, Timeout;
    Unpack(boot, g, n, a, sm);
    StayPut(g, n);
    h := g;
    var logOk := LogOk(a, req.lastLogIndex, req.lastLogTerm);
    if req.term < a.currentTerm {
      RefusalOk(boot, h, n, a, sm, from, RequestVoteResp(a.currentTerm, false, req.preVote));
    } else if req.preVote {
      var noTrustedLeader := a.leaderId.None? || a.electionElapsed >= a.cfg.electionMinTicks;
      RefusalOk(boot, h, n, a, sm, from, RequestVoteResp(a.currentTerm, logOk && noTrustedLeader, true));
    } else if (a.votedFor.None? || a.votedFor == Some(from)) && logOk && req.term == a.currentTerm {
      h := AnswerVoteOk(boot, g, n, a, sm, from, req);
    } else {
      RefusalOk(boot, h, n, a, sm, from, RequestVoteResp(a.currentTerm, false, false));
    }
  }

  lemma HandleRequestVoteOk(boot: Replicated, g: P.Global, n: NodeId, s: State, sm: Replicated, from: NodeId,
                            req: Message)
    returns (h: P.Global)
    requires P.Inv(g) && NodeOk(boot, g, n, s, sm) && from in s.peers
    requires req.RequestVote? && MsgOk(boot, g, from, n, req)
    ensures Moved(boot, g, h, n, HandleRequestVote(s, from, req), sm)
  {
    hide P.Inv, NodeOk, MsgOk, P.StepBy, AnswerVote, Timeout;
    Unpack(boot, g, n, s, sm);
    StayPut(g, n);
    h := g;
    if req.term == 0 {
      RefusalOk(boot, g, n, s, sm, from, RequestVoteResp(s.currentTerm, false, req.preVote));
    } else {
      var a, m := s, g;
      if !req.preVote {
        a := Adopt(s, req.term);
        m := AdoptOk(boot, g, n, s, sm, req.term);
      }
      Unpack(boot, m, n, a, sm);
      MsgOkStays(boot, g, m, n, from, n, req);
      h := AnswerOk(boot, m, n, a, sm, from, req);
      P.StepByTransitive(g, m, h, n);
    }
  }

  /** A genuine vote may be added to a candidate's tally. */
  lemma CountVoteOk(boot: Replicated, g: P.Global, n: NodeId, s: State, sm: Replicated, from: NodeId)
    requires NodeOk(boot, g, n, s, sm)
    requires s.role == PreCandidate || (s.role == Candidate && (from, s.currentTerm, n) in g.votes)
    ensures NodeOk(boot, g, n, s.(votes := s.votes + {from}), sm)
  {
  }

  lemma HandleVoteRespOk(boot: Replicated, g: P.Global, n: NodeId, s: State, sm: Replicated, from: NodeId,
                         resp: Message)
    returns (h: P.Global)
    requires P.Inv(g) && NodeOk(boot, g, n, s, sm)
    requires resp.RequestVoteResp? && MsgOk(boot, g, from, n, resp)
    ensures Moved(boot, g, h, n, HandleVoteResp(s, from, resp), sm)
  {
    hide P.Inv, NodeOk, P.StepBy;
    Unpack(boot, g, n, s, sm);
    StayPut(g, n);
    h := g;
    if resp.term > s.currentTerm {
      h := BecomeFollowerOk(boot, g, n, s, sm, resp.term, None);
    } else if resp.granted && resp.preVote && s.role == PreCandidate {
      CountVoteOk(boot, g, n, s, sm, from);
      h := MaybeWinPreElectionOk(boot, g, n, s.(votes := s.votes + {from}), sm);
    } else if resp.granted && !resp.preVote && s.role == Candidate && resp.term == s.currentTerm {
      CountVoteOk(boot, g, n, s, sm, from);
      h := MaybeWinElectionOk(boot, g, n, s.(votes := s.votes + {from}), sm);
    }
  }

  // ---- splicing ---------------------------------------------------------

  /** What a splice of a stretch of the leader's log `lead` does to a log `full` agreeing with it up to `prev`. */
  ghost predicate SpliceResult(s: State, full: seq<Entry>, lead: seq<Entry>, upto: nat, sp: Spliced)
    requires Holds(s, full) && upto <= |lead|
  {
    if !sp.ok then sp.state == s
    else
      && sp.confirmed == upto
      && ((sp.state == s && lead[..upto] <= full)
          || (!(lead[..upto] <= full) && s.commitIndex <= upto && lead[..s.commitIndex] == full[..s.commitIndex]
              && s.baseIndex <= upto && sp.state == s.(log := lead[s.baseIndex..upto], dirty := true)))
  }

  lemma SpliceMatches(g: P.Global, s: State, full: seq<Entry>, lead: seq<Entry>, prev: nat, x: nat, y: nat)
    requires P.WellFormed(g) && P.GoodLog(g, full, x) && P.GoodLog(g, lead, y) && Holds(s, full)
    requires prev < |full| && prev < |lead|
    ensures lead[prev].term > 0
    ensures prev + 1 >= s.baseIndex ==> TermAt(s, prev + 1) == full[prev].term
    ensures TermAt(s, prev + 1) == lead[prev].term ==> full[..prev + 1] == lead[..prev + 1]
  {
    assert P.EntryOk(g, lead, prev);
    if prev + 1 >= s.baseIndex && full[prev].term == lead[prev].term {
      P.LogMatching(g, full, lead, prev, x, y);
    }
  }

  lemma Stitch(full: seq<Entry>, lead: seq<Entry>, base: nat, prev: nat, upto: nat)
    requires base <= prev < upto <= |lead| && prev <= |full| && full[..prev] == lead[..prev]
    ensures var entries := lead[prev..upto];
            full[base..][..prev - base] + [entries[0]] + entries[1..] == lead[base..upto]
  {
    var entries := lead[prev..upto];
    assert full[base..][..prev - base] == full[..prev][base..] == lead[..prev][base..] == lead[base..prev];
    assert [entries[0]] + entries[1..] == entries;
    assert lead[base..prev] + entries == lead[base..upto];
  }

  lemma SpliceConflict(s: State, full: seq<Entry>, lead: seq<Entry>, entries: seq<Entry>, prev: nat)
    requires Holds(s, full) && prev + |entries| <= |lead| && entries == lead[prev..prev + |entries|] && entries != []
    requires forall k :: 0 <= k < |entries| ==> entries[k].index == prev + 1 + k
    requires s.commitIndex <= prev < |full| && full[..prev] == lead[..prev]
    requires TermAt(s, prev + 1) != entries[0].term
    ensures SpliceResult(s, full, lead, prev + |entries|, Splice(s, entries, prev))
  {
    hide Splice;
    var upto := prev + |entries|;
    Conflicts(s, full, lead, entries, prev);
    SpliceOverwrites(s, entries, prev);
    hide TermAt;
    Stitch(full, lead, s.baseIndex, prev, upto);
    P.PrefixCut(lead, full, prev, s.commitIndex);
  }

  lemma Conflicts(s: State, full: seq<Entry>, lead: seq<Entry>, entries: seq<Entry>, prev: nat)
    requires Holds(s, full) && prev + |entries| <= |lead| && entries == lead[prev..prev + |entries|] && entries != []
    requires s.baseIndex <= prev < |full| && TermAt(s, prev + 1) != entries[0].term
    ensures !(lead[..prev + |entries|] <= full)
  {
    assert lead[..prev + |entries|][prev] == entries[0];
    assert full[prev] == s.log[prev - s.baseIndex];
  }

  lemma SplicePastEnd(s: State, full: seq<Entry>, lead: seq<Entry>, entries: seq<Entry>)
    requires Holds(s, full) && |full| + |entries| <= |lead| && entries != []
    requires entries == lead[|full|..|full| + |entries|] && full == lead[..|full|]
    requires forall k :: 0 <= k < |entries| ==> entries[k].index == |full| + 1 + k
    ensures SpliceResult(s, full, lead, |full| + |entries|, Splice(s, entries, |full|))
  {
    SpliceAppends(s, entries, |full|);
    assert s.log + entries == lead[s.baseIndex..|full| + |entries|];
    P.PrefixCut(lead, full, |full|, s.commitIndex);
  }

  lemma {:induction false} SpliceShape(g: P.Global, s: State, full: seq<Entry>, lead: seq<Entry>,
                                       entries: seq<Entry>, prev: nat, x: nat, y: nat)
    requires P.WellFormed(g) && P.GoodLog(g, full, x) && P.GoodLog(g, lead, y) && Holds(s, full)
    requires prev + |entries| <= |lead| && entries == lead[prev..prev + |entries|]
    requires prev <= |full| && full[..prev] == lead[..prev]
    ensures SpliceResult(s, full, lead, prev + |entries|, Splice(s, entries, prev))
    decreases |entries|
  {
    hide Splice, TermAt, SpliceResult, P.GoodLog;
    IndexesOf(g, lead, entries, prev, y);
    if entries == [] {
      SpliceNothing(s, full, lead, prev);
    } else if prev == |full| {
      assert full == full[..prev];
      SplicePastEnd(s, full, lead, entries);
    } else {
      SpliceMatches(g, s, full, lead, prev, x, y);
      if TermAt(s, prev + 1) == entries[0].term {
        SpliceSkips(s, entries, prev);
        SpliceShape(g, s, full, lead, entries[1..], prev + 1, x, y);
      } else if prev + 1 > s.commitIndex {
        SpliceConflict(s, full, lead, entries, prev);
      } else {
        SpliceStops(s, full, lead, entries, prev);
      }
    }
  }

  lemma IndexesOf(g: P.Global, lead: seq<Entry>, entries: seq<Entry>, prev: nat, y: nat)
    requires P.WellFormed(g) && P.GoodLog(g, lead, y)
    requires prev + |entries| <= |lead| && entries == lead[prev..prev + |entries|]
    ensures forall k :: 0 <= k < |entries| ==> entries[k].index == prev + 1 + k && entries[k].term > 0
  {
    forall k | 0 <= k < |entries| ensures entries[k].index == prev + 1 + k && entries[k].term > 0 {
      assert P.EntryOk(g, lead, prev + k);
    }
  }

  lemma SpliceNothing(s: State, full: seq<Entry>, lead: seq<Entry>, prev: nat)
    requires Holds(s, full) && prev <= |full| && prev <= |lead| && full[..prev] == lead[..prev]
    ensures SpliceResult(s, full, lead, prev, Splice(s, [], prev))
  {
  }

  lemma SpliceStops(s: State, full: seq<Entry>, lead: seq<Entry>, entries: seq<Entry>, prev: nat)
    requires Holds(s, full) && prev + |entries| <= |lead| && entries != [] && entries[0].index == prev + 1
    requires prev < |full| && prev < s.commitIndex && TermAt(s, prev + 1) != entries[0].term
    ensures SpliceResult(s, full, lead, prev + |entries|, Splice(s, entries, prev))
  {
  }
}
