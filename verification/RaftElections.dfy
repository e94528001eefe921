/** Terms, campaigns, votes and taking office keep a member in agreement with the history. */
module RaftElections {
  import opened Model
  import opened RaftSpec
  import opened RaftNode
  import P = Protocol
  import PS = ProtocolSteps

  /** `n` moved from history `g` to `h` and its engine is now in state `r`. */
  ghost predicate Moved(boot: Replicated, g: P.Global, h: P.Global, n: NodeId, r: State, sm: Replicated) {
    P.Inv(h) && P.StepBy(g, h, n) && NodeOk(boot, h, n, r, sm)
  }

  /** `r` differs from `s` only in fields the history does not speak about; a vote tally may be dropped. */
  ghost predicate Cosmetic(s: State, r: State) {
    && r == s.(leaderId := r.leaderId, ackedSinceCheck := r.ackedSinceCheck, snapshotInflight := r.snapshotInflight,
               electionElapsed := r.electionElapsed, heartbeatElapsed := r.heartbeatElapsed,
               electionTimeout := r.electionTimeout, drawn := r.drawn, dirty := r.dirty,
               role := r.role, votes := r.votes)
    && (r.role == Follower || r.role == PreCandidate || (r.role == s.role && r.votes == s.votes))
  }

  lemma CosmeticOk(boot: Replicated, g: P.Global, n: NodeId, s: State, r: State, sm: Replicated)
    requires NodeOk(boot, g, n, s, sm) && Cosmetic(s, r)
    ensures NodeOk(boot, g, n, r, sm)
  {
  }

  lemma StayPut(g: P.Global, n: NodeId)
    requires P.WellFormed(g)
    ensures P.StepBy(g, g, n)
  {
  }

  lemma AdoptedOk(boot: Replicated, g: P.Global, h: P.Global, n: NodeId, s: State, sm: Replicated, t: nat,
                  leader: Option<NodeId>)
    requires NodeOk(boot, g, n, s, sm) && t > s.currentTerm
    requires h == PS.SetCore(g, n, g.core[n].(term := t, vote := None)) && P.StepBy(g, h, n)
    ensures NodeOk(boot, h, n, BecomeFollower(s, t, leader), sm)
  {
    OutOkStays(boot, g, h, n, n, s.out);
  }

  lemma BecomeFollowerOk(boot: Replicated, g: P.Global, n: NodeId, s: State, sm: Replicated, t: nat,
                         leader: Option<NodeId>) returns (h: P.Global)
    requires P.Inv(g) && NodeOk(boot, g, n, s, sm)
    ensures Moved(boot, g, h, n, BecomeFollower(s, t, leader), sm)
    ensures h.core[n].log == g.core[n].log
    ensures t <= s.currentTerm ==> h == g
  {
    hide P.Inv;
    h := g;
    if t > s.currentTerm {
      h := PS.AdoptTerm(g, n, t);
      AdoptedOk(boot, g, h, n, s, sm, t, leader);
    } else {
      StayPut(g, n);
      CosmeticOk(boot, g, n, s, BecomeFollower(s, t, leader), sm);
    }
  }

  lemma AdoptOk(boot: Replicated, g: P.Global, n: NodeId, s: State, sm: Replicated, t: nat) returns (h: P.Global)
    requires P.Inv(g) && NodeOk(boot, g, n, s, sm)
    ensures Moved(boot, g, h, n, Adopt(s, t), sm)
  {
    hide P.Inv, NodeOk, BecomeFollower;
    h := g;
    Unpack(boot, g, n, s, sm);
    StayPut(g, n);
    if t > s.currentTerm {
      h := BecomeFollowerOk(boot, g, n, s, sm, t, None);
    }
  }

  lemma LastTermOk(s: State, full: seq<Entry>)
    requires Holds(s, full)
    ensures LastTerm(s) == PS.LastTerm(full)
  {
  }

  lemma CampaignedOk(boot: Replicated, g: P.Global, h: P.Global, n: NodeId, s: State, sm: Replicated)
    requires NodeOk(boot, g, n, s, sm) && P.VotesOk(g) && P.StepBy(g, h, n)
    requires var t := g.core[n].term + 1;
             h == PS.SetCore(g, n, g.core[n].(term := t, vote := Some(n)))
                  .(candLog := g.candLog[(t, n) := g.core[n].log], votes := g.votes + {(n, t, n)})
    ensures NodeOk(boot, h, n, Campaigning(s), sm)
  {
    OutOkStays(boot, g, h, n, n, s.out);
    var t := s.currentTerm + 1;
    assert (t, n) !in g.candLog;
    assert t in g.leaderOf ==> g.leaderOf[t] != n;
  }

  lemma CampaigningOk(boot: Replicated, g: P.Global, n: NodeId, s: State, sm: Replicated) returns (h: P.Global)
    requires P.Inv(g) && NodeOk(boot, g, n, s, sm)
    ensures Moved(boot, g, h, n, Campaigning(s), sm)
  {
    hide P.VotesOk, NodeOk;
    Unpack(boot, g, n, s, sm);
    h := PS.Campaign(g, n);
    CampaignedOk(boot, g, h, n, s, sm);
  }

  /** The parts of an agreeing member that proofs look at. */
  lemma Unpack(boot: Replicated, g: P.Global, n: NodeId, s: State, sm: Replicated)
    requires NodeOk(boot, g, n, s, sm)
    ensures P.WellFormed(g) && n in g.ids && s.id == n && g.core[n].term == s.currentTerm
    ensures g.core[n].commit == s.commitIndex && g.core[n].vote == s.votedFor && Holds(s, g.core[n].log)
  {
  }

  /** The member set has one member more than the peer list. */
  lemma GroupSize(g: P.Global, n: NodeId, s: State)
    requires GroupOk(g, n, s)
    ensures |g.ids| == |s.peers| + 1
  {
    SetOfSize(s.peers);
    assert g.ids == (set p | p in s.peers) + {n};
  }

  lemma {:induction false} SetOfSize(ps: seq<NodeId>)
    requires Distinct(ps)
    ensures |set p | p in ps| == |ps|
  {
    if ps == [] {
      assert (set p | p in ps) == {};
    } else {
      var k := |ps| - 1;
      SetOfSize(ps[..k]);
      assert (set p | p in ps) == (set p | p in ps[..k]) + {ps[k]};
    }
  }

  /** The votes of a winning candidate are those of a quorum, and nobody led its term before. */
  lemma WinOk(boot: Replicated, g: P.Global, n: NodeId, s: State, sm: Replicated)
    requires P.Inv(g) && NodeOk(boot, g, n, s, sm)
    requires s.role == Candidate && |s.votes| >= Quorum(s)
    ensures P.Quorum(g.ids, s.votes) && s.currentTerm !in g.leaderOf
  {
    GroupSize(g, n, s);
    var t := s.currentTerm;
    assert forall v :: v in s.votes ==> (v, t, n) in g.votes;
    assert P.Quorum(g.ids, s.votes);
    if t in g.leaderOf {
      P.OneLeader(g, t, n, s.votes);
    }
  }

  /** An appended entry leaves the relation between engine and full log intact. */
  lemma PushHolds(boot: Replicated, s: State, full: seq<Entry>, sm: Replicated, e: Entry)
    requires Holds(s, full) && AppliedOk(boot, full, s, sm)
    ensures var r := s.(log := s.log + [e]); Holds(r, full + [e]) && AppliedOk(boot, full + [e], r, sm)
  {
    var ext := full + [e];
    assert ext[s.baseIndex..] == full[s.baseIndex..] + [e];
    assert ext[..s.baseIndex] == full[..s.baseIndex];
    assert s.lastApplied <= |full| ==> ext[..s.lastApplied] == full[..s.lastApplied];
  }

  /** A leader that appends an entry acknowledges it itself. */
  lemma LeaderPush(g: P.Global, n: NodeId, e: Entry) returns (h: P.Global)
    requires P.Inv(g) && n in g.ids
    requires var t := g.core[n].term;
             t > 0 && t in g.leaderOf && g.leaderOf[t] == n && g.leaderLog[t] == g.core[n].log
             && e.term == t && e.index == |g.core[n].log| + 1
    ensures P.Inv(h) && P.StepBy(g, h, n)
    ensures h.core[n] == g.core[n].(log := g.core[n].log + [e])
    ensures var t := g.core[n].term;
            t in h.leaderOf && h.leaderOf[t] == n && h.leaderLog[t] == h.core[n].log
            && P.Acked(h, n, t, |h.core[n].log|)
  {
    var m := PS.Append(g, n, e);
    h := PS.Acknowledge(m, n, |m.core[n].log|);
    P.StepByTransitive(g, m, h, n);
    assert (n, g.core[n].term, |h.core[n].log|) in h.acks;
  }

  lemma OfficeTakenOk(boot: Replicated, g: P.Global, h: P.Global, n: NodeId, s: State, sm: Replicated)
    requires NodeOk(boot, g, n, s, sm) && s.role == Candidate && P.StepBy(g, h, n) && s.currentTerm > 0
    requires h.core[n] == g.core[n].(log := g.core[n].log + [Entry(s.currentTerm, LastIndex(s) + 1, None)])
    requires var t := s.currentTerm;
             t in h.leaderOf && h.leaderOf[t] == n && h.leaderLog[t] == h.core[n].log
             && P.Acked(h, n, t, |h.core[n].log|)
    ensures NodeOk(boot, h, n, TakeOffice(s), sm)
  {
    PushHolds(boot, s, g.core[n].log, sm, Entry(s.currentTerm, LastIndex(s) + 1, None));
    OutOkStays(boot, g, h, n, n, s.out);
  }

  lemma TakeOfficeOk(boot: Replicated, g: P.Global, n: NodeId, s: State, sm: Replicated) returns (h: P.Global)
    requires P.Inv(g) && NodeOk(boot, g, n, s, sm)
    requires s.role == Candidate && |s.votes| >= Quorum(s)
    ensures Moved(boot, g, h, n, TakeOffice(s), sm)
  {
    var e := Entry(s.currentTerm, LastIndex(s) + 1, None);
    var m := ElectOk(boot, g, n, s, sm);
    hide P.Inv, NodeOk;
    Unpack(boot, g, n, s, sm);
    h := LeaderPush(m, n, e);
    P.StepByTransitive(g, m, h, n);
    OfficeTakenOk(boot, g, h, n, s, sm);
  }

  lemma ElectOk(boot: Replicated, g: P.Global, n: NodeId, s: State, sm: Replicated) returns (m: P.Global)
    requires P.Inv(g) && NodeOk(boot, g, n, s, sm)
    requires s.role == Candidate && |s.votes| >= Quorum(s)
    ensures P.Inv(m) && P.StepBy(g, m, n) && m.core == g.core && s.currentTerm > 0
    ensures var t := s.currentTerm; t in m.leaderOf && m.leaderOf[t] == n && m.leaderLog[t] == m.core[n].log
  {
    WinOk(boot, g, n, s, sm);
    hide P.Inv;
    assert s.currentTerm > 0 by {
      CampaignTerm(g, n, s.currentTerm);
    }
    m := PS.Elect(g, n, s.votes);
  }

  lemma CampaignTerm(g: P.Global, n: NodeId, t: nat)
    requires P.Inv(g) && (t, n) in g.candLog
    ensures t > 0
  {
  }

  lemma BecomeLeaderOk(boot: Replicated, g: P.Global, n: NodeId, s: State, sm: Replicated) returns (h: P.Global)
    requires P.Inv(g) && NodeOk(boot, g, n, s, sm)
    requires s.role == Candidate && |s.votes| >= Quorum(s)
    ensures Moved(boot, g, h, n, BecomeLeader(s), sm)
  {
    hide P.Inv, NodeOk;
    h := TakeOfficeOk(boot, g, n, s, sm);
    var a := ResetTimer(TakeOffice(s));
    CosmeticOk(boot, h, n, TakeOffice(s), a, sm);
    BroadcastOk(boot, h, n, a, sm);
    assert BecomeLeader(s) == BroadcastAppend(a);
  }

  lemma BroadcastOk(boot: Replicated, g: P.Global, n: NodeId, s: State, sm: Replicated)
    requires P.Inv(g) && NodeOk(boot, g, n, s, sm) && s.role == Leader
    ensures NodeOk(boot, g, n, BroadcastAppend(s), sm)
  {
    hide NodeOk;
    SendAppendsOk(boot, g, n, s, sm, s.peers);
  }

  lemma MaybeWinElectionOk(boot: Replicated, g: P.Global, n: NodeId, s: State, sm: Replicated) returns (h: P.Global)
    requires P.Inv(g) && NodeOk(boot, g, n, s, sm)
    ensures Moved(boot, g, h, n, MaybeWinElection(s), sm)
  {
    hide P.Inv, NodeOk;
    Unpack(boot, g, n, s, sm);
    h := g;
    StayPut(g, n);
    if s.role == Candidate && |s.votes| >= Quorum(s) {
      h := BecomeLeaderOk(boot, g, n, s, sm);
    }
  }

  lemma VoteRequestOk(boot: Replicated, g: P.Global, n: NodeId, s: State, sm: Replicated, to: NodeId)
    requires NodeOk(boot, g, n, s, sm) && s.role == Candidate
    ensures MsgOk(boot, g, n, to, RequestVote(s.currentTerm, s.id, LastIndex(s), LastTerm(s), false))
  {
    LastTermOk(s, g.core[n].log);
  }

  lemma StartElectionOk(boot: Replicated, g: P.Global, n: NodeId, s: State, sm: Replicated) returns (h: P.Global)
    requires P.Inv(g) && NodeOk(boot, g, n, s, sm)
    ensures Moved(boot, g, h, n, StartElection(s), sm)
  {
    hide P.Inv, NodeOk, MsgOk;
    var m := CampaigningOk(boot, g, n, s, sm);
    var a := Campaigning(s);
    var req := RequestVote(a.currentTerm, a.id, LastIndex(a), LastTerm(a), false);
    forall p | p in a.peers ensures MsgOk(boot, m, n, p, req) {
      VoteRequestOk(boot, m, n, a, sm, p);
    }
    SendAllOk(boot, m, n, a, sm, a.peers, req);
    h := MaybeWinElectionOk(boot, m, n, SendAll(a, a.peers, req), sm);
    P.StepByTransitive(g, m, h, n);
  }

  lemma MaybeWinPreElectionOk(boot: Replicated, g: P.Global, n: NodeId, s: State, sm: Replicated) returns (h: P.Global)
    requires P.Inv(g) && NodeOk(boot, g, n, s, sm)
    ensures Moved(boot, g, h, n, MaybeWinPreElection(s), sm)
  {
    hide P.Inv, NodeOk;
    Unpack(boot, g, n, s, sm);
    h := g;
    StayPut(g, n);
    if s.role == PreCandidate && |s.votes| >= Quorum(s) {
      h := StartElectionOk(boot, g, n, s, sm);
    }
  }

  lemma StartPreElectionOk(boot: Replicated, g: P.Global, n: NodeId, s: State, sm: Replicated) returns (h: P.Global)
    requires P.Inv(g) && NodeOk(boot, g, n, s, sm)
    ensures Moved(boot, g, h, n, StartPreElection(s), sm)
  {
    hide P.Inv, NodeOk;
    Unpack(boot, g, n, s, sm);
    var a := ResetTimer(s).(role := PreCandidate, votes := {s.id});
    CosmeticOk(boot, g, n, s, a, sm);
    var req := RequestVote(a.currentTerm + 1, a.id, LastIndex(a), LastTerm(a), true);
    SendAllOk(boot, g, n, a, sm, a.peers, req);
    h := MaybeWinPreElectionOk(boot, g, n, SendAll(a, a.peers, req), sm);
  }

  lemma TickOk(boot: Replicated, g: P.Global, n: NodeId, s: State, sm: Replicated) returns (h: P.Global)
    requires P.Inv(g) && NodeOk(boot, g, n, s, sm)
    ensures Moved(boot, g, h, n, Tick(s), sm)
  {
    hide P.Inv, NodeOk, P.StepBy, StartPreElection, CheckQuorum, Heartbeat;
    Unpack(boot, g, n, s, sm);
    if s.role == Leader {
      h := LeaderTickOk(boot, g, n, s, sm);
    } else {
      var a := s.(electionElapsed := s.electionElapsed + 1);
      CosmeticOk(boot, g, n, s, a, sm);
      h := g;
      StayPut(g, n);
      if a.electionElapsed >= a.electionTimeout {
        h := StartPreElectionOk(boot, g, n, a, sm);
      }
    }
  }

  lemma LeaderTickOk(boot: Replicated, g: P.Global, n: NodeId, s: State, sm: Replicated) returns (h: P.Global)
    requires P.Inv(g) && NodeOk(boot, g, n, s, sm) && s.role == Leader
    ensures Moved(boot, g, h, n, CheckQuorum(Heartbeat(s)), sm)
  {
    hide P.Inv, NodeOk;
    var a := s.(heartbeatElapsed := s.heartbeatElapsed + 1);
    CosmeticOk(boot, g, n, s, a, sm);
    if a.heartbeatElapsed >= a.cfg.heartbeatTicks {
      CosmeticOk(boot, g, n, a, a.(heartbeatElapsed := 0), sm);
      BroadcastOk(boot, g, n, a.(heartbeatElapsed := 0), sm);
    }
    h := CheckQuorumOk(boot, g, n, Heartbeat(s), sm);
  }

  lemma CheckQuorumOk(boot: Replicated, g: P.Global, n: NodeId, s: State, sm: Replicated) returns (h: P.Global)
    requires P.Inv(g) && NodeOk(boot, g, n, s, sm)
    ensures Moved(boot, g, h, n, CheckQuorum(s), sm)
  {
    hide P.Inv, NodeOk, P.StepBy, Timeout;
    Unpack(boot, g, n, s, sm);
    StayPut(g, n);
    h := g;
    var a := s.(electionElapsed := s.electionElapsed + 1);
    if a.electionElapsed >= a.electionTimeout && |a.ackedSinceCheck| + 1 < Quorum(a) {
      var b := a.(ackedSinceCheck := {});
      CosmeticOk(boot, g, n, s, b, sm);
      h := BecomeFollowerOk(boot, g, n, b, sm, b.currentTerm, None);
    } else {
      CosmeticOk(boot, g, n, s, CheckQuorum(s), sm);
    }
  }

  // ---- votes ------------------------------------------------------------

  lemma VoteCastOk(boot: Replicated, g: P.Global, h: P.Global, n: NodeId, s: State, sm: Replicated, from: NodeId)
    requires NodeOk(boot, g, n, s, sm) && s.role != Leader && s.role != Candidate
    requires h == PS.SetCore(g, n, g.core[n].(vote := Some(from))).(votes := g.votes + {(n, s.currentTerm, from)})
    requires P.StepBy(g, h, n)
    ensures NodeOk(boot, h, n, s.(votedFor := Some(from), dirty := true), sm)
  {
    OutOkStays(boot, g, h, n, n, s.out);
  }
}
