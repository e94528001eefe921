/**
 * The Raft engine as it is written: an object whose operations update its fields
 * in place. Every operation is proved to take the object from one state of
 * `RaftSpec` to exactly the state that module prescribes.
 */
module RaftEngine {
  import opened Model
  import S = RaftSpec

  datatype Proposed = Accepted(index: nat) | NotLeader(leader: Option<NodeId>)

  class Raft {
    const id: NodeId
    const peers: seq<NodeId>
    const cfg: S.Config
    var currentTerm: nat
    var votedFor: Option<NodeId>
    var log: seq<Entry>
    var baseIndex: nat
    var baseTerm: nat
    var snapshot: Option<Replicated>
    var role: S.Role
    var commitIndex: nat
    var lastApplied: nat
    var leaderId: Option<NodeId>
    var pendingRestore: bool
    var votes: set<NodeId>
    var ackedSinceCheck: set<NodeId>
    var nextIndex: map<NodeId, nat>
    var matchIndex: map<NodeId, nat>
    var snapshotInflight: map<NodeId, nat>
    var electionElapsed: nat
    var heartbeatElapsed: nat
    var electionTimeout: nat
    var drawn: nat
    var out: seq<S.Addressed>
    var dirty: bool
    const generator: nat -> nat

    ghost function State(): S.State
      reads this
    {
      S.State(id, peers, cfg, currentTerm, votedFor, log, baseIndex, baseTerm, snapshot, role, commitIndex,
              lastApplied, leaderId, pendingRestore, votes, ackedSinceCheck, nextIndex, matchIndex, snapshotInflight,
              electionElapsed, heartbeatElapsed, electionTimeout, generator, drawn, out, dirty)
    }

    constructor (id: NodeId, peers: seq<NodeId>, cfg: S.Config, generator: nat -> nat, restored: S.Persisted)
      ensures State() == S.New(id, peers, cfg, generator, restored)
    {
      this.id, this.peers, this.cfg, this.generator := id, peers, cfg, generator;
      currentTerm, votedFor, log := restored.currentTerm, restored.votedFor, restored.log;
      baseIndex, baseTerm, snapshot := restored.baseIndex, restored.baseTerm, restored.snapshot;
      role, commitIndex, lastApplied := S.Follower, restored.commitIndex, restored.baseIndex;
      leaderId, pendingRestore, votes, ackedSinceCheck := None, false, {}, {};
      nextIndex, matchIndex, snapshotInflight := map[], map[], map[];
      electionElapsed, heartbeatElapsed, electionTimeout, drawn := 0, 0, 0, 0;
      out, dirty := [], false;
      new;
      ResetElectionTimer();
    }

    method PersistedSnapshot() returns (p: S.Persisted)
      ensures p == S.Durable(State())
    {
      p := S.Persisted(currentTerm, votedFor, commitIndex, log, baseIndex, baseTerm, snapshot);
    }

    method Quorum() returns (q: nat)
      ensures q == S.Quorum(State())
    {
      q := (|peers| + 1) / 2 + 1;
    }

    method LastIndex() returns (i: nat)
      ensures i == S.LastIndex(State())
    {
      i := baseIndex + |log|;
    }

    method LastTerm() returns (t: nat)
      ensures t == S.LastTerm(State())
    {
      t := if log == [] then baseTerm else log[|log| - 1].term;
    }

    method LogSlot(index: nat) returns (slot: Option<nat>)
      ensures slot == S.Slot(State(), index)
    {
      if index <= baseIndex || index > baseIndex + |log| {
        slot := None;
      } else {
        slot := Some(index - baseIndex - 1);
      }
    }

    method TermAt(index: nat) returns (t: nat)
      ensures t == S.TermAt(State(), index)
    {
      if index == baseIndex {
        t := baseTerm;
      } else {
        var slot := LogSlot(index);
        t := if slot.Some? then log[slot.value].term else 0;
      }
    }

    method ResetElectionTimer()
      modifies this`electionElapsed, this`electionTimeout, this`drawn
      ensures State() == S.ResetTimer(old(State()))
    {
      hide S.Timeout;
      electionElapsed := 0;
      electionTimeout := DrawTimeout(cfg, generator(drawn));
      drawn := drawn + 1;
    }

    method Send(to: NodeId, msg: S.Message)
      modifies this`out
      ensures State() == S.Send(old(State()), to, msg)
    {
      out := out + [S.Addressed(to, msg)];
    }

    method SendToPeers(msg: S.Message)
      modifies this`out
      ensures State() == S.SendAll(old(State()), peers, msg)
    {
      for i := 0 to |peers|
        invariant State() == S.SendAll(old(State()), peers[..i], msg)
      {
        Send(peers[i], msg);
        assert peers[..i + 1][..i] == peers[..i];
      }
      assert peers[..|peers|] == peers;
    }

    method SendSnapshot(peer: NodeId)
      modifies this`out, this`snapshotInflight
      ensures State() == S.SendSnapshot(old(State()), peer)
    {
      if snapshot.Some? {
        snapshotInflight := snapshotInflight[peer := baseIndex];
        Send(peer, S.InstallSnapshot(currentTerm, id, baseIndex, baseTerm, snapshot.value));
      }
    }

    method SendAppend(peer: NodeId)
      modifies this`out, this`snapshotInflight
      ensures State() == S.SendAppend(old(State()), peer)
    {
      var last := LastIndex();
      var next := if peer in nextIndex then nextIndex[peer] else last + 1;
      if next <= baseIndex {
        SendSnapshot(peer);
        return;
      }
      var prevLogTerm := TermAt(next - 1);
      var slot := LogSlot(next);
      var entries := if slot.Some? then log[slot.value..] else [];
      Send(peer, S.AppendEntries(currentTerm, id, next - 1, prevLogTerm, entries, commitIndex));
    }

    method BroadcastAppend()
      modifies this`out, this`snapshotInflight
      ensures State() == S.BroadcastAppend(old(State()))
    {
      for i := 0 to |peers|
        invariant State() == S.SendAppends(old(State()), peers[..i])
      {
        SendAppend(peers[i]);
        assert peers[..i + 1][..i] == peers[..i];
      }
      assert peers[..|peers|] == peers;
    }

    // ---- elections ------------------------------------------------------

    /** New term and vote, to be saved. */
    method AdoptHardState(term: nat, vote: Option<NodeId>)
      modifies this`currentTerm, this`votedFor, this`dirty
      ensures State() == old(State()).(currentTerm := term, votedFor := vote, dirty := true)
    {
      currentTerm := term;
      votedFor := vote;
      dirty := true;
    }

    method EnterRole(role: S.Role, leader: Option<NodeId>, votes: set<NodeId>)
      modifies this`role, this`leaderId, this`votes
      ensures State() == old(State()).(role := role, leaderId := leader, votes := votes)
    {
      this.role := role;
      this.leaderId := leader;
      this.votes := votes;
    }

    method BecomeFollower(term: nat, leader: Option<NodeId>)
      modifies this
      ensures State() == S.BecomeFollower(old(State()), term, leader)
    {
      if term > currentTerm {
        AdoptHardState(term, None);
      }
      EnterRole(S.Follower, leader, {});
      snapshotInflight := map[];
      ResetElectionTimer();
    }

    /** Every peer is assumed to hold our log and known to hold nothing. */
    method InitProgress(next: nat)
      modifies this`nextIndex, this`matchIndex, this`snapshotInflight
      ensures State() == old(State()).(nextIndex := S.AllAt(peers, next), matchIndex := S.AllAt(peers, 0),
                                       snapshotInflight := map[])
    {
      nextIndex, matchIndex := FreshProgress(peers, next);
      snapshotInflight := map[];
    }

    method PushEntry(e: Entry)
      modifies this`log, this`dirty
      ensures State() == old(State()).(log := old(log) + [e], dirty := true)
    {
      log := log + [e];
      dirty := true;
    }

    /** Everything a new leader sets up before its first broadcast. */
    method TakeOffice()
      modifies this
      ensures State() == S.TakeOffice(old(State()))
    {
      hide S.AllAt, S.LastIndex;
      var last := LastIndex();
      EnterRole(S.Leader, Some(id), votes);
      InitProgress(last + 1);
      OpenTerm(last + 1);
    }

    /** The no-op of the new term, in a fresh heartbeat and check-quorum window. */
    method OpenTerm(index: nat)
      modifies this`log, this`dirty, this`heartbeatElapsed, this`ackedSinceCheck
      ensures State() == old(State()).(log := old(log) + [Entry(currentTerm, index, None)], dirty := true,
                                       heartbeatElapsed := 0, ackedSinceCheck := {})
    {
      PushEntry(Entry(currentTerm, index, None));
      heartbeatElapsed := 0;
      ackedSinceCheck := {};
    }

    method BecomeLeader()
      modifies this
      ensures State() == S.BecomeLeader(old(State()))
    {
      hide S.TakeOffice, S.ResetTimer, S.SendAppends;
      TakeOffice();
      ResetElectionTimer();
      BroadcastAppend();
    }

    method MaybeWinElection()
      modifies this
      ensures State() == S.MaybeWinElection(old(State()))
    {
      var quorum := Quorum();
      if role == S.Candidate && |votes| >= quorum {
        BecomeLeader();
      }
    }

    method StartElection()
      modifies this
      ensures State() == S.StartElection(old(State()))
    {
      AdoptHardState(currentTerm + 1, Some(id));
      EnterRole(S.Candidate, None, {id});
      ResetElectionTimer();
      assert State() == S.Campaigning(old(State()));
      var lastIndex := LastIndex();
      var lastTerm := LastTerm();
      SendToPeers(S.RequestVote(currentTerm, id, lastIndex, lastTerm, false));
      MaybeWinElection();
    }

    method MaybeWinPreElection()
      modifies this
      ensures State() == S.MaybeWinPreElection(old(State()))
    {
      var quorum := Quorum();
      if role == S.PreCandidate && |votes| >= quorum {
        StartElection();
      }
    }

    method StartPreElection()
      modifies this
      ensures State() == S.StartPreElection(old(State()))
    {
      hide S.SendAll, S.MaybeWinPreElection, S.Timeout;
      ResetElectionTimer();
      EnterRole(S.PreCandidate, leaderId, {id});
      var lastIndex := LastIndex();
      var lastTerm := LastTerm();
      SendToPeers(S.RequestVote(currentTerm + 1, id, lastIndex, lastTerm, true));
      MaybeWinPreElection();
    }

    method Heartbeat()
      modifies this`heartbeatElapsed, this`out, this`snapshotInflight
      ensures State() == S.Heartbeat(old(State()))
    {
      heartbeatElapsed := heartbeatElapsed + 1;
      if heartbeatElapsed >= cfg.heartbeatTicks {
        heartbeatElapsed := 0;
        BroadcastAppend();
      }
    }

    /** A leader that a quorum has not answered within an election timeout steps down. */
    method CheckQuorum()
      modifies this
      ensures State() == S.CheckQuorum(old(State()))
    {
      electionElapsed := electionElapsed + 1;
      if electionElapsed >= electionTimeout {
        var reachable := |ackedSinceCheck| + 1;
        ackedSinceCheck := {};
        var quorum := Quorum();
        if reachable < quorum {
          BecomeFollower(currentTerm, None);
        } else {
          ResetElectionTimer();
        }
      }
    }

    /** One logical tick. */
    method Tick()
      modifies this
      ensures State() == S.Tick(old(State()))
    {
      hide S.WaitForLeader, S.CheckQuorum, S.Heartbeat;
      if role == S.Leader {
        Heartbeat();
        CheckQuorum();
        return;
      }
      WaitForLeader();
    }

    method WaitForLeader()
      modifies this
      ensures State() == S.WaitForLeader(old(State()))
    {
      hide S.StartPreElection;
      electionElapsed := electionElapsed + 1;
      if electionElapsed >= electionTimeout {
        StartPreElection();
      }
    }

    // ---- votes ----------------------------------------------------------

    method HandleRequestVote(from: NodeId, req: S.Message)
      requires req.RequestVote?
      modifies this
      ensures State() == S.HandleRequestVote(old(State()), from, req)
    {
      if req.term == 0 {
        Send(from, S.RequestVoteResp(currentTerm, false, req.preVote));
        return;
      }
      if !req.preVote && req.term > currentTerm {
        BecomeFollower(req.term, None);
      }
      AnswerVote(from, req);
    }

    method AnswerVote(from: NodeId, req: S.Message)
      requires req.RequestVote?
      modifies this
      ensures State() == S.AnswerVote(old(State()), from, req)
    {
      var lastTerm := LastTerm();
      var lastIndex := LastIndex();
      var logOk := req.lastLogTerm > lastTerm || (req.lastLogTerm == lastTerm && req.lastLogIndex >= lastIndex);
      var granted := false;
      if req.term < currentTerm {
        granted := false;
      } else if req.preVote {
        var noTrustedLeader := leaderId.None? || electionElapsed >= cfg.electionMinTicks;
        granted := logOk && noTrustedLeader;
      } else {
        var free := votedFor.None? || votedFor == Some(from);
        if free && logOk && req.term == currentTerm {
          AdoptHardState(currentTerm, Some(from));
          ResetElectionTimer();
          granted := true;
        }
      }
      Send(from, S.RequestVoteResp(currentTerm, granted, req.preVote));
    }

    method HandleVoteResp(from: NodeId, resp: S.Message)
      requires resp.RequestVoteResp?
      modifies this
      ensures State() == S.HandleVoteResp(old(State()), from, resp)
    {
      if resp.term > currentTerm {
        BecomeFollower(resp.term, None);
        return;
      }
      if !resp.granted {
        return;
      }
      if resp.preVote {
        if role == S.PreCandidate {
          votes := votes + {from};
          MaybeWinPreElection();
        }
      } else if role == S.Candidate && resp.term == currentTerm {
        votes := votes + {from};
        MaybeWinElection();
      }
    }

    // ---- appending ------------------------------------------------------

    /** Drop entries from `index` on, reporting whether that was allowed. */
    method TruncateFrom(index: nat) returns (ok: bool)
      modifies this`log, this`dirty
      ensures (ok, State()) == S.TruncateFrom(old(State()), index)
    {
      if index <= commitIndex {
        return false;
      }
      var slot := LogSlot(index);
      if slot.Some? {
        log := log[..slot.value];
        dirty := true;
      }
      return true;
    }

    /** The splice loop: merge `entries` until one is refused. */
    method SpliceEntries(entries: seq<Entry>, prev: nat) returns (confirmed: nat, spliced: bool)
      modifies this`log, this`dirty
      ensures S.Spliced(State(), confirmed, spliced) == S.Splice(old(State()), entries, prev)
    {
      spliced := true;
      confirmed := prev;
      var i := 0;
      while i < |entries|
        invariant i <= |entries|
        invariant S.Splice(old(State()), entries, prev) == S.Splice(State(), entries[i..], confirmed)
        invariant spliced
      {
        var entry := entries[i];
        assert entries[i..][0] == entry && entries[i..][1..] == entries[i + 1..];
        var last := LastIndex();
        if entry.index <= last {
          var term := TermAt(entry.index);
          if term != entry.term {
            var ok := TruncateFrom(entry.index);
            if !ok {
              spliced := false;
              return;
            }
            log := log + [entry];
            dirty := true;
          }
        } else {
          log := log + [entry];
          dirty := true;
        }
        confirmed := entry.index;
        i := i + 1;
      }
    }

    method HandleAppend(from: NodeId, req: S.Message)
      requires req.AppendEntries?
      modifies this
      ensures State() == S.HandleAppend(old(State()), from, req)
    {
      if req.term < currentTerm {
        Send(from, S.AppendEntriesResp(currentTerm, false, 0));
        return;
      }
      if req.term > currentTerm {
        BecomeFollower(req.term, None);
      }
      var wellFormed := EntriesAreContiguous(req);
      if !wellFormed {
        var last := LastIndex();
        Send(from, S.AppendEntriesResp(currentTerm, false, last));
        return;
      }
      BecomeFollower(req.term, Some(from));
      AcceptAppend(from, req);
    }

    method AcceptAppend(from: NodeId, req: S.Message)
      requires req.AppendEntries?
      modifies this`log, this`dirty, this`commitIndex, this`out
      ensures State() == S.AcceptAppend(old(State()), from, req)
    {
      var success, match_;
      var last := LastIndex();
      var prevTerm := TermAt(req.prevLogIndex);
      if req.prevLogIndex > last {
        success, match_ := false, last;
      } else if req.prevLogIndex > 0 && prevTerm != req.prevLogTerm {
        success, match_ := false, req.prevLogIndex - 1;
      } else {
        match_, success := SpliceEntries(req.entries, req.prevLogIndex);
        var commit := if req.leaderCommit < match_ then req.leaderCommit else match_;
        if success && commit > commitIndex {
          commitIndex := commit;
          dirty := true;
        }
      }
      Send(from, S.AppendEntriesResp(currentTerm, success, match_));
    }

    // ---- replies to a leader --------------------------------------------

    /** How many members, this one included, are known to hold the log up to `n`. */
    method CountMatching(n: nat) returns (count: nat)
      ensures count == 1 + S.Matching(peers, matchIndex, n)
    {
      count := 1;
      for k := 0 to |peers|
        invariant count == 1 + S.Matching(peers[..k], matchIndex, n)
      {
        if (if peers[k] in matchIndex then matchIndex[peers[k]] else 0) >= n {
          count := count + 1;
        }
        assert peers[..k + 1][..k] == peers[..k];
      }
      assert peers[..|peers|] == peers;
    }

    /** The highest index that may be committed, by looking at each one above the commit index. */
    method FindCommit() returns (newCommit: nat)
      ensures newCommit == S.HighestCommittable(State(), S.LastIndex(State()))
    {
      var last := LastIndex();
      var quorum := Quorum();
      newCommit := commitIndex;
      if last < commitIndex {
        return;
      }
      for n := commitIndex + 1 to last + 1
        invariant newCommit == S.HighestCommittable(State(), n - 1)
      {
        var term := TermAt(n);
        if term == currentTerm {
          var count := CountMatching(n);
          if count >= quorum {
            newCommit := n;
          }
        }
      }
    }

    method FollowCommit(c: nat) returns (advanced: bool)
      modifies this`commitIndex, this`dirty
      ensures State() == S.FollowCommit(old(State()), c)
      ensures advanced <==> commitIndex > old(commitIndex)
    {
      if c > commitIndex {
        commitIndex := c;
        dirty := true;
        return true;
      }
      return false;
    }

    method MaybeAdvanceCommit() returns (advanced: bool)
      modifies this`commitIndex, this`dirty
      ensures State() == S.MaybeAdvanceCommit(old(State()))
      ensures advanced <==> commitIndex > old(commitIndex)
    {
      var c := FindCommit();
      advanced := FollowCommit(c);
    }

    method SetProgress(from: NodeId, matched: nat)
      modifies this`matchIndex, this`nextIndex
      ensures State() == old(State()).(matchIndex := old(matchIndex)[from := matched],
                                       nextIndex := old(nextIndex)[from := matched + 1])
    {
      matchIndex := matchIndex[from := matched];
      nextIndex := nextIndex[from := matched + 1];
    }

    method RecordMatch(from: NodeId, acknowledged: nat)
      modifies this`commitIndex, this`dirty, this`matchIndex, this`nextIndex, this`out, this`snapshotInflight
      ensures State() == S.RecordMatch(old(State()), from, acknowledged)
    {
      hide S.MaybeAdvanceCommit, S.BroadcastAppend;
      var known := if from in matchIndex then matchIndex[from] else 0;
      var matched := if acknowledged < known then known else acknowledged;
      SetProgress(from, matched);
      var advanced := MaybeAdvanceCommit();
      if advanced {
        BroadcastAppend();
      }
    }

    /** Step `next` back after a failure, and retry only if that made progress. */
    method Rewind(from: NodeId, hint: nat)
      modifies this`nextIndex, this`out, this`snapshotInflight
      ensures State() == S.Rewind(old(State()), from, hint)
    {
      var previous := if from in nextIndex then nextIndex[from] else 1;
      var back := if previous <= 1 then 1 else previous - 1;
      var next := if hint + 1 < back then hint + 1 else back;
      nextIndex := nextIndex[from := if next < previous then next else previous];
      if next < previous {
        SendAppend(from);
      }
    }

    method HandleAppendResp(from: NodeId, resp: S.Message)
      requires resp.AppendEntriesResp?
      modifies this
      ensures State() == S.HandleAppendResp(old(State()), from, resp)
    {
      hide S.RecordMatch, S.Rewind, S.BecomeFollower;
      if resp.term > currentTerm {
        BecomeFollower(resp.term, None);
        return;
      }
      if role != S.Leader || resp.term != currentTerm {
        return;
      }
      ackedSinceCheck := ackedSinceCheck + {from};
      if resp.success {
        var last := LastIndex();
        RecordMatch(from, if resp.matchIndex < last then resp.matchIndex else last);
      } else {
        Rewind(from, resp.matchIndex);
      }
    }

    // ---- snapshots ------------------------------------------------------

    method HandleInstallSnapshot(from: NodeId, req: S.Message)
      requires req.InstallSnapshot?
      modifies this
      ensures State() == S.HandleInstallSnapshot(old(State()), from, req)
    {
      if req.term < currentTerm {
        Send(from, S.InstallSnapshotResp(currentTerm, false, 0));
        return;
      }
      if req.term > currentTerm {
        BecomeFollower(req.term, None);
      }
      if !S.SnapshotMetadataIsValid(req) {
        Send(from, S.InstallSnapshotResp(currentTerm, false, 0));
        return;
      }
      BecomeFollower(req.term, Some(from));
      AcceptSnapshot(from, req);
    }

    method SetBase(index: nat, term: nat, data: Replicated)
      modifies this`baseIndex, this`baseTerm, this`snapshot
      ensures State() == old(State()).(baseIndex := index, baseTerm := term, snapshot := Some(data))
    {
      baseIndex := index;
      baseTerm := term;
      snapshot := Some(data);
    }

    /** The state machine is to be reset to `index`. */
    method JumpTo(index: nat)
      modifies this`commitIndex, this`lastApplied, this`pendingRestore
      ensures State() == old(State()).(commitIndex := S.Max(old(commitIndex), index), lastApplied := index,
                                       pendingRestore := true)
    {
      commitIndex := if commitIndex < index then index else commitIndex;
      lastApplied := index;
      pendingRestore := true;
    }

    method SetLog(entries: seq<Entry>)
      modifies this`log, this`dirty
      ensures State() == old(State()).(log := entries, dirty := true)
    {
      log := entries;
      dirty := true;
    }

    method AcceptSnapshot(from: NodeId, req: S.Message)
      requires req.InstallSnapshot?
      modifies this
      ensures State() == S.AcceptSnapshot(old(State()), from, req)
    {
      if req.lastIncludedIndex <= baseIndex || req.lastIncludedIndex <= commitIndex {
        Send(from, S.InstallSnapshotResp(currentTerm, true, req.lastIncludedIndex));
        return;
      }
      var term := TermAt(req.lastIncludedIndex);
      var last := LastIndex();
      if term == req.lastIncludedTerm && req.lastIncludedIndex <= last {
        SetLog(log[req.lastIncludedIndex - baseIndex..]);
      } else {
        SetLog([]);
      }
      SetBase(req.lastIncludedIndex, req.lastIncludedTerm, req.data);
      JumpTo(req.lastIncludedIndex);
      Send(from, S.InstallSnapshotResp(currentTerm, true, baseIndex));
    }

    method HandleInstallSnapshotResp(from: NodeId, resp: S.Message)
      requires resp.InstallSnapshotResp?
      modifies this
      ensures State() == S.HandleInstallSnapshotResp(old(State()), from, resp)
    {
      hide S.RecordMatch, S.BecomeFollower;
      if resp.term > currentTerm {
        BecomeFollower(resp.term, None);
        return;
      }
      if role != S.Leader || resp.term != currentTerm {
        return;
      }
      ackedSinceCheck := ackedSinceCheck + {from};
      if resp.success {
        var sent := TakeInflight(from);
        RecordMatch(from, if resp.lastIncludedIndex < sent then resp.lastIncludedIndex else sent);
      }
    }

    /** The snapshot boundary in flight to `from`, now no longer in flight. */
    method TakeInflight(from: NodeId) returns (sent: nat)
      modifies this`snapshotInflight
      ensures sent == S.Get(old(snapshotInflight), from, 0)
      ensures State() == old(State()).(snapshotInflight := old(snapshotInflight) - {from})
    {
      sent := if from in snapshotInflight then snapshotInflight[from] else 0;
      snapshotInflight := snapshotInflight - {from};
    }

    // ---- the public operations ------------------------------------------

    /** Handle one inbound message from `from`. */
    method Step(from: NodeId, msg: S.Message)
      modifies this
      ensures State() == S.Step(old(State()), from, msg)
    {
      var bodyIdentityMatches :=
        match msg
        case RequestVote(_, candidate, _, _, _) => candidate == from
        case AppendEntries(_, leader, _, _, _, _) => leader == from
        case InstallSnapshot(_, leader, _, _, _) => leader == from
        case _ => true;
      if from !in peers || !bodyIdentityMatches {
        return;
      }
      match msg
      case RequestVote(_, _, _, _, _) => HandleRequestVote(from, msg);
      case RequestVoteResp(_, _, _) => HandleVoteResp(from, msg);
      case AppendEntries(_, _, _, _, _, _) => HandleAppend(from, msg);
      case AppendEntriesResp(_, _, _) => HandleAppendResp(from, msg);
      case InstallSnapshot(_, _, _, _, _) => HandleInstallSnapshot(from, msg);
      case InstallSnapshotResp(_, _, _) => HandleInstallSnapshotResp(from, msg);
    }

    /** Append a command; only a leader may. */
    method Propose(command: Command) returns (r: Proposed)
      modifies this
      ensures State() == S.Propose(old(State()), command)
      ensures r == if old(role) == S.Leader then Accepted(old(baseIndex) + |old(log)| + 1) else NotLeader(old(leaderId))
    {
      hide S.MaybeAdvanceCommit, S.BroadcastAppend;
      if role != S.Leader {
        return NotLeader(leaderId);
      }
      var last := LastIndex();
      PushEntry(Entry(currentTerm, last + 1, Some(command)));
      var _ := MaybeAdvanceCommit();
      BroadcastAppend();
      return Accepted(last + 1);
    }

    /** Fold the log up to `index` into `data`. */
    method Compact(index: nat, data: Replicated)
      modifies this`log, this`baseIndex, this`baseTerm, this`snapshot, this`dirty
      ensures State() == S.Compact(old(State()), index, data)
    {
      if index <= baseIndex || index > commitIndex {
        return;
      }
      var term := TermAt(index);
      var keepFrom := index - baseIndex;
      SetLog(if keepFrom <= |log| then log[keepFrom..] else []);
      SetBase(index, term, data);
    }

    method TakePersist() returns (persist: Option<S.Persisted>)
      modifies this`dirty
      ensures persist == if old(dirty) then Some(S.Durable(old(State()))) else None
      ensures State() == old(State()).(dirty := false)
    {
      persist := None;
      if dirty {
        dirty := false;
        var p := PersistedSnapshot();
        persist := Some(p);
      }
    }

    /** Walk up to the commit index, collecting the commands on the way. */
    method TakeCommitted() returns (committed: seq<(nat, Command)>)
      modifies this`lastApplied
      ensures committed == S.Batch(old(State()), old(lastApplied), commitIndex)
      ensures State() == old(State()).(lastApplied := S.Max(old(lastApplied), commitIndex))
    {
      committed := [];
      while lastApplied < commitIndex
        invariant old(lastApplied) <= lastApplied <= S.Max(old(lastApplied), commitIndex)
        invariant committed == S.Batch(old(State()), old(lastApplied), lastApplied)
      {
        lastApplied := lastApplied + 1;
        var slot := LogSlot(lastApplied);
        assert slot == S.Slot(old(State()), lastApplied);
        if slot.Some? && log[slot.value].command.Some? {
          committed := committed + [(lastApplied, log[slot.value].command.value)];
        }
      }
      if old(lastApplied) >= commitIndex {
        assert S.Batch(old(State()), old(lastApplied), commitIndex) == [];
      }
    }

    /** Hand over the side effects. */
    method Ready() returns (ready: S.Ready)
      modifies this
      ensures (ready, State()) == S.TakeReady(old(State()))
    {
      var messages := out;
      out := [];
      var persist := TakePersist();
      var restore := None;
      if pendingRestore {
        pendingRestore := false;
        restore := snapshot;
      }
      var appliedFrom := lastApplied;
      ghost var before := State();
      var committed := TakeCommitted();
      BatchSame(before, old(State()), appliedFrom, commitIndex);
      ready := S.Ready(persist, restore, appliedFrom, lastApplied, messages, committed);
    }
  }

  /** A timeout within the configured range. */
  method DrawTimeout(cfg: S.Config, draw: nat) returns (timeout: nat)
    ensures timeout == S.Timeout(cfg, draw)
  {
    var min := if cfg.electionMinTicks < 1 then 1 else cfg.electionMinTicks;
    var max := if cfg.electionMaxTicks < min then min else cfg.electionMaxTicks;
    timeout := min + draw % (max - min + 1);
  }

  /** The two maps a new leader starts from, filled peer by peer. */
  method FreshProgress(peers: seq<NodeId>, next: nat)
    returns (nextIndex: map<NodeId, nat>, matchIndex: map<NodeId, nat>)
    ensures nextIndex == S.AllAt(peers, next) && matchIndex == S.AllAt(peers, 0)
  {
    nextIndex, matchIndex := map[], map[];
    for i := 0 to |peers|
      invariant nextIndex == S.AllAt(peers[..i], next) && matchIndex == S.AllAt(peers[..i], 0)
    {
      nextIndex := nextIndex[peers[i] := next];
      matchIndex := matchIndex[peers[i] := 0];
      assert peers[..i + 1][..i] == peers[..i];
    }
    assert peers[..|peers|] == peers;
  }

  /** A batch depends on the log only. */
  lemma {:induction false} BatchSame(s: S.State, r: S.State, from: nat, upto: nat)
    requires s.log == r.log && s.baseIndex == r.baseIndex
    ensures S.Batch(s, from, upto) == S.Batch(r, from, upto)
    decreases upto
  {
    if upto > from {
      BatchSame(s, r, from, upto - 1);
    }
  }

  /** The shape test on an append request, entry by entry. */
  method EntriesAreContiguous(req: S.Message) returns (ok: bool)
    requires req.AppendEntries?
    ensures ok <==> S.EntriesAreContiguous(req)
  {
    if req.term == 0 || (req.prevLogIndex == 0) != (req.prevLogTerm == 0) {
      return false;
    }
    var previousTerm := req.prevLogTerm;
    for i := 0 to |req.entries|
      invariant S.Contiguous(req.prevLogIndex, req.prevLogTerm, req.entries[..i], req.term)
      invariant previousTerm == if i == 0 then req.prevLogTerm else req.entries[i - 1].term
    {
      var entry := req.entries[i];
      if entry.index != req.prevLogIndex + 1 + i || entry.term == 0 || entry.term < previousTerm
         || entry.term > req.term {
        return false;
      }
      previousTerm := entry.term;
    }
    assert req.entries[..|req.entries|] == req.entries;
    return true;
  }
}
