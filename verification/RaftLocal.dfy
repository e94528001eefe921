/**
 * What a member guarantees on its own, from any valid saved state and whatever
 * messages arrive: what it hands to the store stays valid, everything durable it
 * changes is marked for saving, terms and commit index never fall, a vote is
 * never changed within its term, and no committed live entry is ever altered.
 */
module RaftLocal {
  import opened Model
  import opened RaftSpec
  import opened RaftSplice

  /** The consistency the store demands of what it saves and recovers. */
  predicate ValidPersisted(p: Persisted) {
    && (p.currentTerm == 0 ==> p.votedFor.None?)
    && (p.baseIndex == 0 <==> p.baseTerm == 0)
    && (p.baseIndex > 0 <==> p.snapshot.Some?)
    && p.baseTerm <= p.currentTerm
    && p.baseIndex <= p.commitIndex <= p.baseIndex + |p.log|
    && Contiguous(p.baseIndex, p.baseTerm, p.log, p.currentTerm)
  }

  predicate InOffice(s: State) { s.role == Candidate || s.role == Leader }

  ghost predicate Valid(s: State) {
    ValidPersisted(Durable(s)) && (InOffice(s) ==> s.currentTerm > 0)
  }

  function EntryAt(s: State, i: nat): Option<Entry> {
    match Slot(s, i)
    case Some(k) => Some(s.log[k])
    case None => None
  }

  /** Committed entries that are still live are the ones that were there before. */
  ghost predicate KeepsCommitted(s: State, r: State) {
    forall i {:trigger EntryAt(r, i)} :: r.baseIndex < i <= s.commitIndex ==> EntryAt(r, i) == EntryAt(s, i)
  }

  /** What every operation may do to a member, at most. */
  ghost predicate Evolves(s: State, r: State) {
    && r.id == s.id && r.peers == s.peers && r.cfg == s.cfg && r.draws == s.draws
    && (s.dirty ==> r.dirty) && (Durable(r) == Durable(s) || r.dirty)
    && s.currentTerm <= r.currentTerm
    && (r.currentTerm == s.currentTerm && s.votedFor.Some? ==> r.votedFor == s.votedFor)
    && s.commitIndex <= r.commitIndex && s.baseIndex <= r.baseIndex
    && KeepsCommitted(s, r)
  }

  ghost predicate Sound(s: State, r: State) {
    Valid(s) ==> Valid(r) && Evolves(s, r)
  }

  lemma SoundTransitive(s: State, r: State, q: State)
    requires Sound(s, r) && Sound(r, q)
    ensures Sound(s, q)
  {
    if Valid(s) {
      forall i {:trigger EntryAt(q, i)} | q.baseIndex < i <= s.commitIndex ensures EntryAt(q, i) == EntryAt(s, i) {
        assert EntryAt(r, i) == EntryAt(s, i);
      }
    }
  }

  /** Nothing durable changes. */
  lemma SameDurable(s: State, r: State)
    requires r.id == s.id && r.peers == s.peers && r.cfg == s.cfg && r.draws == s.draws
    requires Durable(r) == Durable(s) && (s.dirty ==> r.dirty) && (InOffice(r) ==> InOffice(s))
    ensures Sound(s, r)
  {
  }

  /** Only hard state changes: a later term, or a first vote in a positive term. */
  lemma HardStateSound(s: State, r: State)
    requires r.id == s.id && r.peers == s.peers && r.cfg == s.cfg && r.draws == s.draws && r.dirty
    requires Durable(r) == Durable(s).(currentTerm := r.currentTerm, votedFor := r.votedFor)
    requires r.currentTerm > s.currentTerm
             || (r.currentTerm == s.currentTerm > 0 && (s.votedFor.None? || s.votedFor == r.votedFor))
    ensures Sound(s, r)
  {
  }

  lemma BecomeFollowerSound(s: State, t: nat, leader: Option<NodeId>)
    ensures Sound(s, BecomeFollower(s, t, leader))
  {
    if t > s.currentTerm {
      HardStateSound(s, BecomeFollower(s, t, leader));
    } else {
      SameDurable(s, BecomeFollower(s, t, leader));
    }
  }

  lemma AdoptSound(s: State, t: nat)
    ensures Sound(s, Adopt(s, t))
  {
    hide Sound, Timeout;
    BecomeFollowerSound(s, t, None);
    SameDurable(s, s);
  }

  lemma AdoptedTerm(s: State, t: nat, leader: Option<NodeId>)
    requires t >= s.currentTerm
    ensures BecomeFollower(Adopt(s, t), t, leader).currentTerm == t
  {
  }

  /** An entry of the current term is appended. */
  lemma PushSound(s: State, r: State, e: Entry)
    requires r.id == s.id && r.peers == s.peers && r.cfg == s.cfg && r.draws == s.draws && r.dirty
    requires Durable(r) == Durable(s).(log := s.log + [e])
    requires e.term == s.currentTerm > 0 && e.index == LastIndex(s) + 1
    ensures Sound(s, r)
  {
  }

  lemma FollowCommitSound(s: State, c: nat)
    requires c <= LastIndex(s)
    ensures Sound(s, FollowCommit(s, c))
  {
  }

  // ---- elections --------------------------------------------------------

  lemma MaybeWinElectionSound(s: State)
    ensures Sound(s, MaybeWinElection(s))
  {
    if s.role == Candidate && |s.votes| >= Quorum(s) && s.currentTerm > 0 {
      PushSound(s, BecomeLeader(s), Entry(s.currentTerm, LastIndex(s) + 1, None));
    } else if s.role != Candidate || |s.votes| < Quorum(s) {
      SameDurable(s, s);
    }
  }

  lemma StartElectionSound(s: State)
    ensures Sound(s, StartElection(s))
  {
    hide Sound, Timeout, MaybeWinElection;
    var a := Campaigning(s);
    var b := SendAll(a, a.peers, RequestVote(a.currentTerm, a.id, LastIndex(a), LastTerm(a), false));
    HardStateSound(s, b);
    MaybeWinElectionSound(b);
    SoundTransitive(s, b, MaybeWinElection(b));
  }

  lemma MaybeWinPreElectionSound(s: State)
    ensures Sound(s, MaybeWinPreElection(s))
  {
    hide Sound, Timeout, StartElection;
    if s.role == PreCandidate && |s.votes| >= Quorum(s) {
      StartElectionSound(s);
    } else {
      SameDurable(s, s);
    }
  }

  lemma TickSound(s: State)
    ensures Sound(s, Tick(s))
  {
    hide Sound, Timeout, MaybeWinPreElection;
    if s.role == Leader {
      LeaderTickSound(s);
    } else {
      var a := s.(electionElapsed := s.electionElapsed + 1);
      if a.electionElapsed >= a.electionTimeout {
        var b := ResetTimer(a).(role := PreCandidate, votes := {s.id});
        var c := SendAll(b, b.peers, RequestVote(b.currentTerm + 1, b.id, LastIndex(b), LastTerm(b), true));
        SameDurable(s, c);
        MaybeWinPreElectionSound(c);
        SoundTransitive(s, c, MaybeWinPreElection(c));
      } else {
        SameDurable(s, a);
      }
    }
  }

  lemma HeartbeatFrame(s: State)
    ensures var r := Heartbeat(s);
            r == s.(heartbeatElapsed := r.heartbeatElapsed, out := r.out, snapshotInflight := r.snapshotInflight)
  {
  }

  lemma CheckQuorumSound(s: State)
    ensures Sound(s, CheckQuorum(s))
  {
    hide Sound, Timeout;
    var a := s.(electionElapsed := s.electionElapsed + 1);
    var b := a.(ackedSinceCheck := {});
    if a.electionElapsed < a.electionTimeout {
      SameDurable(s, a);
    } else if |a.ackedSinceCheck| + 1 < Quorum(a) {
      SameDurable(s, b);
      BecomeFollowerSound(b, b.currentTerm, None);
      SoundTransitive(s, b, BecomeFollower(b, b.currentTerm, None));
    } else {
      SameDurable(s, ResetTimer(b));
    }
  }

  lemma LeaderTickSound(s: State)
    ensures Sound(s, CheckQuorum(Heartbeat(s)))
  {
    hide Sound, Timeout;
    var a := Heartbeat(s);
    HeartbeatFrame(s);
    SameDurable(s, a);
    CheckQuorumSound(a);
    SoundTransitive(s, a, CheckQuorum(a));
  }

  lemma AnswerVoteSound(a: State, from: NodeId, req: Message)
    requires req.RequestVote? && req.term > 0
    ensures Sound(a, AnswerVote(a, from, req))
  {
    hide Sound, Timeout;
    var r := AnswerVote(a, from, req);
    if !req.preVote && req.term == a.currentTerm && (a.votedFor.None? || a.votedFor == Some(from))
       && LogOk(a, req.lastLogIndex, req.lastLogTerm) {
      var b := a.(votedFor := Some(from), dirty := true);
      HardStateSound(a, b);
      SameDurable(b, r);
      SoundTransitive(a, b, r);
    } else {
      assert r == a.(out := r.out);
      SameDurable(a, r);
    }
  }

  lemma HandleRequestVoteSound(s: State, from: NodeId, req: Message)
    requires req.RequestVote?
    ensures Sound(s, HandleRequestVote(s, from, req))
  {
    hide Sound, Timeout, AnswerVote;
    var r := HandleRequestVote(s, from, req);
    if req.term == 0 {
      SameDurable(s, r);
    } else {
      var a := if req.preVote then s else Adopt(s, req.term);
      SameDurable(s, s);
      AdoptSound(s, req.term);
      AnswerVoteSound(a, from, req);
      SoundTransitive(s, a, r);
    }
  }

  lemma HandleVoteRespSound(s: State, from: NodeId, resp: Message)
    requires resp.RequestVoteResp?
    ensures Sound(s, HandleVoteResp(s, from, resp))
  {
    hide Sound, Timeout, MaybeWinElection, MaybeWinPreElection;
    if resp.term > s.currentTerm {
      BecomeFollowerSound(s, resp.term, None);
    } else if resp.granted && resp.preVote && s.role == PreCandidate {
      var a := s.(votes := s.votes + {from});
      SameDurable(s, a);
      MaybeWinPreElectionSound(a);
      SoundTransitive(s, a, MaybeWinPreElection(a));
    } else if resp.granted && !resp.preVote && s.role == Candidate && resp.term == s.currentTerm {
      var a := s.(votes := s.votes + {from});
      SameDurable(s, a);
      MaybeWinElectionSound(a);
      SoundTransitive(s, a, MaybeWinElection(a));
    } else {
      SameDurable(s, s);
    }
  }

  // ---- replication ------------------------------------------------------

  /** A run of entries that continues a valid log keeps it valid. */
  lemma ContiguousConcat(base: nat, baseTerm: nat, a: seq<Entry>, b: seq<Entry>, prevTerm: nat, bound: nat)
    requires Contiguous(base, baseTerm, a, bound) && Contiguous(base + |a|, prevTerm, b, bound)
    requires prevTerm >= (if a == [] then baseTerm else a[|a| - 1].term)
    ensures Contiguous(base, baseTerm, a + b, bound)
  {
    var ab := a + b;
    forall k | 0 <= k < |ab|
      ensures ab[k].index == base + 1 + k && 0 < ab[k].term <= bound && baseTerm <= ab[k].term
    {
    }
    forall j, k | 0 <= j <= k < |ab| ensures ab[j].term <= ab[k].term {
      if j < |a| <= k {
        assert a[j].term <= a[|a| - 1].term <= prevTerm <= b[k - |a|].term;
      }
    }
  }

  lemma ContiguousCut(base: nat, baseTerm: nat, a: seq<Entry>, m: nat, bound: nat)
    requires Contiguous(base, baseTerm, a, bound) && m <= |a|
    ensures Contiguous(base, baseTerm, a[..m], bound)
    ensures Contiguous(base + m, if m == 0 then baseTerm else a[m - 1].term, a[m..], bound)
  {
  }

  /** Replacing the log from an agreed point above the commit index on. */
  lemma ReplaceTailSound(s: State, r: State, p: nat, entries: seq<Entry>)
    requires s.baseIndex <= p <= LastIndex(s) && s.commitIndex <= p
    requires r == s.(log := s.log[..p - s.baseIndex] + entries, dirty := true)
    requires Contiguous(p, TermAt(s, p), entries, s.currentTerm)
    ensures Sound(s, r)
  {
    if Valid(s) {
      ContiguousCut(s.baseIndex, s.baseTerm, s.log, p - s.baseIndex, s.currentTerm);
      ContiguousConcat(s.baseIndex, s.baseTerm, s.log[..p - s.baseIndex], entries, TermAt(s, p), s.currentTerm);
    }
  }

  lemma SpliceSound(s: State, entries: seq<Entry>, prev: nat, prevTerm: nat)
    requires Contiguous(prev, prevTerm, entries, s.currentTerm) && prev <= LastIndex(s)
    requires prev >= s.baseIndex ==> TermAt(s, prev) == prevTerm || prev == 0
    ensures Sound(s, Splice(s, entries, prev).state)
  {
    hide Sound, Splice, Evolves;
    if !Valid(s) {
      NotValidSound(s, Splice(s, entries, prev).state);
    } else {
      var m := SpliceForm(s, entries, prev);
      var sp := Splice(s, entries, prev);
      var p := prev + m;
      if sp.state == s {
        SameDurable(s, s);
      } else {
        TailContinues(s, entries, prev, prevTerm, m);
        hide Contiguous, TermAt;
        ReplaceTailSound(s, sp.state, p, entries[m..]);
      }
    }
  }

  /** What follows the entries already present continues the log there. */
  lemma TailContinues(s: State, entries: seq<Entry>, prev: nat, prevTerm: nat, m: nat)
    requires Contiguous(prev, prevTerm, entries, s.currentTerm) && m <= |entries|
             && (s.baseIndex == 0 ==> s.baseTerm == 0)
    requires s.baseIndex <= prev + m && (prev >= s.baseIndex ==> TermAt(s, prev) == prevTerm || prev == 0)
    requires forall k :: 0 <= k < m ==> TermAt(s, prev + 1 + k) == entries[k].term
    ensures Contiguous(prev + m, TermAt(s, prev + m), entries[m..], s.currentTerm)
  {
    ContiguousCut(prev, prevTerm, entries, m, s.currentTerm);
    assert m > 0 ==> TermAt(s, prev + 1 + (m - 1)) == entries[m - 1].term;
  }

  lemma NotValidSound(s: State, r: State)
    requires !Valid(s)
    ensures Sound(s, r)
  {
  }

  lemma SpliceConfirms(s: State, entries: seq<Entry>, prev: nat, prevTerm: nat)
    requires Valid(s) && Contiguous(prev, prevTerm, entries, s.currentTerm) && prev <= LastIndex(s)
    ensures Splice(s, entries, prev).confirmed <= LastIndex(Splice(s, entries, prev).state)
  {
    var m := SpliceForm(s, entries, prev);
    assert m > 0 ==> prev + 1 + (m - 1) <= LastIndex(s);
  }

  lemma AcceptAppendSound(s: State, from: NodeId, req: Message)
    requires req.AppendEntries? && EntriesAreContiguous(req) && req.term == s.currentTerm
    ensures Sound(s, AcceptAppend(s, from, req))
  {
    hide Sound, Splice, Contiguous, TermAt;
    var r := AcceptAppend(s, from, req);
    if req.prevLogIndex > LastIndex(s)
       || (req.prevLogIndex > 0 && TermAt(s, req.prevLogIndex) != req.prevLogTerm) {
      SameDurable(s, r);
    } else {
      var sp := Splice(s, req.entries, req.prevLogIndex);
      SpliceSound(s, req.entries, req.prevLogIndex, req.prevLogTerm);
      var c := Min(req.leaderCommit, sp.confirmed);
      var a := if sp.ok then FollowCommit(sp.state, c) else sp.state;
      FollowConfirmedSound(s, req, c);
      SameDurable(a, r);
      SoundTransitive(s, a, r);
    }
  }

  lemma FollowConfirmedSound(s: State, req: Message, c: nat)
    requires req.AppendEntries? && EntriesAreContiguous(req) && req.term == s.currentTerm
    requires req.prevLogIndex <= LastIndex(s) && c <= Splice(s, req.entries, req.prevLogIndex).confirmed
    ensures var t := Splice(s, req.entries, req.prevLogIndex).state;
            Sound(s, t) ==> Sound(s, FollowCommit(t, c))
  {
    hide Contiguous, TermAt, Splice;
    if Valid(s) {
      var t := Splice(s, req.entries, req.prevLogIndex).state;
      SpliceConfirms(s, req.entries, req.prevLogIndex, req.prevLogTerm);
      FollowCommitSound(t, c);
      if Sound(s, t) {
        SoundTransitive(s, t, FollowCommit(t, c));
      }
    }
  }

  lemma HandleAppendSound(s: State, from: NodeId, req: Message)
    requires req.AppendEntries?
    ensures Sound(s, HandleAppend(s, from, req))
  {
    hide Sound, BecomeFollower, Adopt, AcceptAppend, EntriesAreContiguous;
    var r := HandleAppend(s, from, req);
    if req.term < s.currentTerm {
      SameDurable(s, r);
    } else {
      var a := Adopt(s, req.term);
      AdoptSound(s, req.term);
      if !EntriesAreContiguous(req) {
        SameDurable(a, r);
      } else {
        var b := BecomeFollower(a, req.term, Some(from));
        BecomeFollowerSound(a, req.term, Some(from));
        AdoptedTerm(s, req.term, Some(from));
        AcceptAppendSound(b, from, req);
        SoundTransitive(a, b, r);
      }
      SoundTransitive(s, a, r);
    }
  }

  lemma MaybeAdvanceCommitSound(s: State)
    ensures Sound(s, MaybeAdvanceCommit(s))
  {
    if s.commitIndex <= LastIndex(s) {
      FollowCommitSound(s, HighestCommittable(s, LastIndex(s)));
    }
  }

  lemma BroadcastSound(s: State)
    ensures Sound(s, BroadcastAppend(s))
  {
    hide Sound;
    SameDurable(s, BroadcastAppend(s));
  }

  lemma RecordMatchSound(s: State, from: NodeId, acknowledged: nat)
    ensures Sound(s, RecordMatch(s, from, acknowledged))
  {
    hide Sound, BroadcastAppend, MaybeAdvanceCommit;
    var matched := Max(acknowledged, Get(s.matchIndex, from, 0));
    var a := s.(matchIndex := s.matchIndex[from := matched], nextIndex := s.nextIndex[from := matched + 1]);
    SameDurable(s, a);
    var b := MaybeAdvanceCommit(a);
    MaybeAdvanceCommitSound(a);
    SoundTransitive(s, a, b);
    BroadcastSound(b);
    SoundTransitive(s, b, BroadcastAppend(b));
  }

  lemma HandleAppendRespSound(s: State, from: NodeId, resp: Message)
    requires resp.AppendEntriesResp?
    ensures Sound(s, HandleAppendResp(s, from, resp))
  {
    hide Sound, Timeout, RecordMatch, SendAppend;
    var r := HandleAppendResp(s, from, resp);
    if resp.term > s.currentTerm {
      BecomeFollowerSound(s, resp.term, None);
    } else if s.role == Leader && resp.term == s.currentTerm && resp.success {
      var a := s.(ackedSinceCheck := s.ackedSinceCheck + {from});
      SameDurable(s, a);
      RecordMatchSound(a, from, Min(resp.matchIndex, LastIndex(a)));
      SoundTransitive(s, a, r);
    } else {
      assert r == s.(ackedSinceCheck := r.ackedSinceCheck, nextIndex := r.nextIndex, out := r.out,
                     snapshotInflight := r.snapshotInflight);
      SameDurable(s, r);
    }
  }

  lemma HandleInstallSnapshotRespSound(s: State, from: NodeId, resp: Message)
    requires resp.InstallSnapshotResp?
    ensures Sound(s, HandleInstallSnapshotResp(s, from, resp))
  {
    hide Sound, Timeout, RecordMatch;
    var r := HandleInstallSnapshotResp(s, from, resp);
    if resp.term > s.currentTerm {
      BecomeFollowerSound(s, resp.term, None);
    } else if s.role == Leader && resp.term == s.currentTerm && resp.success {
      var a := s.(ackedSinceCheck := s.ackedSinceCheck + {from}, snapshotInflight := s.snapshotInflight - {from});
      SameDurable(s, a);
      RecordMatchSound(a, from, Min(resp.lastIncludedIndex, Get(s.snapshotInflight, from, 0)));
      SoundTransitive(s, a, r);
    } else {
      SameDurable(s, r);
    }
  }

  // ---- snapshots and compaction -----------------------------------------

  lemma InstallSound(s: State, req: Message)
    requires req.InstallSnapshot? && SnapshotMetadataIsValid(req) && req.term == s.currentTerm
    requires req.lastIncludedIndex > s.baseIndex && req.lastIncludedIndex > s.commitIndex
    ensures Sound(s, Install(s, req))
  {
    if Valid(s) {
      var i := req.lastIncludedIndex;
      var r := Install(s, req);
      if TermAt(s, i) == req.lastIncludedTerm && i <= LastIndex(s) {
        ContiguousCut(s.baseIndex, s.baseTerm, s.log, i - s.baseIndex, s.currentTerm);
        RebasedSound(s, r, i);
      } else {
        ClearedSound(s, r, i);
      }
    }
  }

  /** The log is discarded in favour of a base beyond everything committed. */
  lemma ClearedSound(s: State, r: State, index: nat)
    requires Valid(s) && s.baseIndex < index && s.commitIndex < index && 0 < r.baseTerm <= s.currentTerm
    requires r.id == s.id && r.peers == s.peers && r.cfg == s.cfg && r.draws == s.draws && r.dirty && r.role == s.role
    requires r.currentTerm == s.currentTerm && r.votedFor == s.votedFor && r.baseIndex == index && r.snapshot.Some?
    requires r.log == [] && r.commitIndex == index
    ensures Sound(s, r)
  {
  }

  lemma AcceptSnapshotSound(s: State, from: NodeId, req: Message)
    requires req.InstallSnapshot? && SnapshotMetadataIsValid(req) && req.term == s.currentTerm
    ensures Sound(s, AcceptSnapshot(s, from, req))
  {
    hide Sound, Install;
    var r := AcceptSnapshot(s, from, req);
    if req.lastIncludedIndex <= s.baseIndex || req.lastIncludedIndex <= s.commitIndex {
      SameDurable(s, r);
    } else {
      var a := Install(s, req);
      InstallSound(s, req);
      SameDurable(a, r);
      SoundTransitive(s, a, r);
    }
  }

  lemma HandleInstallSnapshotSound(s: State, from: NodeId, req: Message)
    requires req.InstallSnapshot?
    ensures Sound(s, HandleInstallSnapshot(s, from, req))
  {
    hide Sound, BecomeFollower, Adopt, AcceptSnapshot;
    var r := HandleInstallSnapshot(s, from, req);
    if req.term < s.currentTerm {
      SameDurable(s, r);
    } else {
      var a := Adopt(s, req.term);
      AdoptSound(s, req.term);
      if !SnapshotMetadataIsValid(req) {
        SameDurable(a, r);
      } else {
        var b := BecomeFollower(a, req.term, Some(from));
        BecomeFollowerSound(a, req.term, Some(from));
        AdoptedTerm(s, req.term, Some(from));
        AcceptSnapshotSound(b, from, req);
        SoundTransitive(a, b, r);
      }
      SoundTransitive(s, a, r);
    }
  }

  lemma CompactSound(s: State, index: nat, data: Replicated)
    ensures Sound(s, Compact(s, index, data))
  {
    if Valid(s) && s.baseIndex < index <= s.commitIndex {
      ContiguousCut(s.baseIndex, s.baseTerm, s.log, index - s.baseIndex, s.currentTerm);
      var r := Compact(s, index, data);
      RebasedSound(s, r, index);
    } else if Valid(s) {
      SameDurable(s, s);
    }
  }

  /** The log is cut at a new base; the rest of it stays. */
  lemma RebasedSound(s: State, r: State, index: nat)
    requires Valid(s) && s.baseIndex < index <= LastIndex(s) && r.baseTerm <= s.currentTerm && r.baseTerm > 0
    requires r.id == s.id && r.peers == s.peers && r.cfg == s.cfg && r.draws == s.draws && r.dirty && r.role == s.role
    requires r.currentTerm == s.currentTerm && r.votedFor == s.votedFor && r.baseIndex == index && r.snapshot.Some?
    requires r.log == s.log[index - s.baseIndex..] && r.commitIndex == Max(s.commitIndex, index)
    requires Contiguous(index, r.baseTerm, r.log, s.currentTerm)
    ensures Sound(s, r)
  {
    hide Contiguous;
    forall i {:trigger EntryAt(r, i)} | r.baseIndex < i <= s.commitIndex ensures EntryAt(r, i) == EntryAt(s, i) {
    }
  }

  // ---- whole runs -------------------------------------------------------

  lemma StepSound(s: State, from: NodeId, msg: Message)
    ensures Sound(s, Step(s, from, msg))
  {
    hide Sound, HandleRequestVote, HandleVoteResp, HandleAppend, HandleAppendResp, HandleInstallSnapshot,
      HandleInstallSnapshotResp;
    if !Admissible(s, from, msg) {
      SameDurable(s, s);
    } else {
      match msg
      case RequestVote(_, _, _, _, _) => HandleRequestVoteSound(s, from, msg);
      case RequestVoteResp(_, _, _) => HandleVoteRespSound(s, from, msg);
      case AppendEntries(_, _, _, _, _, _) => HandleAppendSound(s, from, msg);
      case AppendEntriesResp(_, _, _) => HandleAppendRespSound(s, from, msg);
      case InstallSnapshot(_, _, _, _, _) => HandleInstallSnapshotSound(s, from, msg);
      case InstallSnapshotResp(_, _, _) => HandleInstallSnapshotRespSound(s, from, msg);
    }
  }

  lemma ProposeSound(s: State, command: Command)
    ensures Sound(s, Propose(s, command))
  {
    hide Sound, BroadcastAppend, MaybeAdvanceCommit;
    if s.role != Leader {
      SameDurable(s, s);
    } else {
      var e := Entry(s.currentTerm, LastIndex(s) + 1, Some(command));
      var a := s.(log := s.log + [e], dirty := true);
      LeaderPushSound(s, a, e);
      var b := MaybeAdvanceCommit(a);
      MaybeAdvanceCommitSound(a);
      SoundTransitive(s, a, b);
      BroadcastSound(b);
      SoundTransitive(s, b, BroadcastAppend(b));
    }
  }

  lemma LeaderPushSound(s: State, a: State, e: Entry)
    requires s.role == Leader && e.term == s.currentTerm && e.index == LastIndex(s) + 1
    requires a == s.(log := s.log + [e], dirty := true)
    ensures Sound(s, a)
  {
    if s.currentTerm > 0 {
      PushSound(s, a, e);
    }
  }

  datatype Call = CallTick | CallStep(from: NodeId, msg: Message) | CallPropose(command: Command)
                | CallCompact(index: nat, data: Replicated)

  function Perform(s: State, c: Call): State {
    match c
    case CallTick => Tick(s)
    case CallStep(from, msg) => Step(s, from, msg)
    case CallPropose(command) => Propose(s, command)
    case CallCompact(index, data) => Compact(s, index, data)
  }

  /** A member and what its store holds, after each call's effects were taken and saved. */
  datatype Saved = Saved(state: State, disk: Persisted)

  function PerformAndSave(x: Saved, c: Call): Saved {
    var (ready, r) := TakeReady(Perform(x.state, c));
    Saved(r, if ready.persist.Some? then ready.persist.value else x.disk)
  }

  function PerformAll(x: Saved, calls: seq<Call>): Saved {
    if calls == [] then x else PerformAndSave(PerformAll(x, calls[..|calls| - 1]), calls[|calls| - 1])
  }

  lemma PerformSound(s: State, c: Call)
    ensures Sound(s, Perform(s, c))
  {
    hide Sound, Tick, Step, Propose, Compact;
    match c
    case CallTick => TickSound(s);
    case CallStep(from, msg) => StepSound(s, from, msg);
    case CallPropose(command) => ProposeSound(s, command);
    case CallCompact(index, data) => CompactSound(s, index, data);
  }

  /** Hard state, commit index and committed entries as they may change over a run. */
  ghost predicate Forward(s: State, r: State) {
    && s.currentTerm <= r.currentTerm && s.commitIndex <= r.commitIndex && s.baseIndex <= r.baseIndex
    && (r.currentTerm == s.currentTerm && s.votedFor.Some? ==> r.votedFor == s.votedFor)
    && KeepsCommitted(s, r)
  }

  lemma PerformAndSaveForward(x: Saved, c: Call)
    requires Valid(x.state) && x.disk == Durable(x.state)
    ensures var y := PerformAndSave(x, c);
            Valid(y.state) && y.disk == Durable(y.state) && Forward(x.state, y.state)
  {
    hide Perform;
    PerformSound(x.state, c);
    var s := Perform(x.state, c);
    var r := TakeReady(s).1;
    forall i {:trigger EntryAt(r, i)} ensures EntryAt(r, i) == EntryAt(s, i) {
    }
  }

  lemma ForwardTransitive(s: State, r: State, q: State)
    requires Forward(s, r) && Forward(r, q)
    ensures Forward(s, q)
  {
    forall i {:trigger EntryAt(q, i)} | q.baseIndex < i <= s.commitIndex ensures EntryAt(q, i) == EntryAt(s, i) {
      assert EntryAt(r, i) == EntryAt(s, i);
    }
  }

  /**
   * Local robustness: from any valid saved state, under every sequence of calls
   * with arbitrary messages, the store always holds exactly the member's durable
   * state, that state is valid, and term, vote, commit index and committed
   * entries only ever move forward.
   */
  lemma {:induction false} Robust(id: NodeId, peers: seq<NodeId>, cfg: Config, draws: nat -> nat, p: Persisted,
                                  calls: seq<Call>, more: seq<Call>)
    requires ValidPersisted(p)
    ensures var x := Saved(New(id, peers, cfg, draws, p), p);
            var a, b := PerformAll(x, calls), PerformAll(x, calls + more);
            && ValidPersisted(a.disk) && a.disk == Durable(a.state)
            && ValidPersisted(b.disk) && b.disk == Durable(b.state)
            && Forward(a.state, b.state)
    decreases |more|, |calls|
  {
    hide PerformAndSave;
    var x := Saved(New(id, peers, cfg, draws, p), p);
    RobustValid(x, calls);
    if more == [] {
      assert calls + more == calls;
    } else {
      var k := |more| - 1;
      Robust(id, peers, cfg, draws, p, calls, more[..k]);
      RobustValid(x, calls + more[..k]);
      var all := calls + more;
      assert all[..|all| - 1] == calls + more[..k];
      PerformAndSaveForward(PerformAll(x, calls + more[..k]), more[k]);
      ForwardTransitive(PerformAll(x, calls).state, PerformAll(x, calls + more[..k]).state, PerformAll(x, all).state);
    }
  }

  lemma {:induction false} RobustValid(x: Saved, calls: seq<Call>)
    requires Valid(x.state) && x.disk == Durable(x.state)
    ensures var y := PerformAll(x, calls); Valid(y.state) && y.disk == Durable(y.state)
  {
    if calls != [] {
      RobustValid(x, calls[..|calls| - 1]);
      PerformAndSaveForward(PerformAll(x, calls[..|calls| - 1]), calls[|calls| - 1]);
    }
  }
}
