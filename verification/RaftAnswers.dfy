/**
 * What a member sends and hands over, exactly: its answers to appends and snapshots,
 * where it resumes after a refusal, what goes to the peers at a heartbeat, a proposal
 * or a new commit, and what a drain is given.
 */
module RaftAnswers {
  import opened Model
  import opened RaftSpec
  import opened RaftSplice
  import G = RaftProgress
  import K = RaftCatchUp
  import L = RaftLocal
  import M = RaftMajority
  import R = RaftRefusals

  // ---- appends ----------------------------------------------------------

  /** A peer sends an append or a snapshot in its own name. */
  predicate Leads(f: State, from: NodeId, req: Message) {
    (req.AppendEntries? || req.InstallSnapshot?) && from in f.peers && req.leaderId == from
  }

  /** Whoever leads an earlier term is told the member's, and not listened to. */
  lemma StaleLeaderTold(f: State, from: NodeId, req: Message)
    requires Leads(f, from, req) && req.term < f.currentTerm
    ensures Step(f, from, req) ==
            f.(out := f.out + [Addressed(from, if req.AppendEntries? then AppendEntriesResp(f.currentTerm, false, 0)
                                               else InstallSnapshotResp(f.currentTerm, false, 0))])
  {
  }

  /**
   * A malformed append or snapshot is refused, makes nobody leader and changes nothing,
   * except that a later term is taken in.
   */
  lemma MalformedRefused(f: State, from: NodeId, req: Message)
    requires Leads(f, from, req) && req.term >= f.currentTerm
    requires if req.AppendEntries? then !EntriesAreContiguous(req) else !SnapshotMetadataIsValid(req)
    ensures var r := Step(f, from, req);
            && r.out == f.out + [Addressed(from, if req.AppendEntries?
                                                 then AppendEntriesResp(req.term, false, LastIndex(f))
                                                 else InstallSnapshotResp(req.term, false, 0))]
            && r.log == f.log && r.commitIndex == f.commitIndex && r.baseIndex == f.baseIndex
            && r.currentTerm == req.term
            && (if req.term == f.currentTerm then r == f.(out := r.out)
                else r.leaderId == None && r.votedFor == None && r.role == Follower && r.dirty)
  {
    hide EntriesAreContiguous, SnapshotMetadataIsValid, BecomeFollower, AcceptAppend, AcceptSnapshot;
    FollowerIs(f, req.term, None);
    if req.term > f.currentTerm {
      FollowerVote(f, req.term);
    }
  }

  lemma FollowerVote(f: State, t: nat)
    requires t > f.currentTerm
    ensures var a := BecomeFollower(f, t, None); a.votedFor == None && a.dirty
  {
    hide Timeout;
  }

  /** The append begins within the log, on an entry of the term it names. */
  predicate Begins(f: State, req: Message)
    requires req.AppendEntries?
  {
    req.prevLogIndex <= LastIndex(f) && (req.prevLogIndex == 0 || TermAt(f, req.prevLogIndex) == req.prevLogTerm)
  }

  /** The append begins on a known entry and contradicts nothing committed. */
  ghost predicate Fits(f: State, req: Message)
    requires req.AppendEntries?
  {
    Begins(f, req) && R.AgreesWithCommitted(f, req)
  }

  /** `m` is how many of the request's entries the log already has, up to the first that it has not. */
  ghost predicate Already(f: State, req: Message, m: nat)
    requires req.AppendEntries?
  {
    var p := req.prevLogIndex + m;
    && m <= |req.entries|
    && (forall k :: 0 <= k < m ==> TermAt(f, req.prevLogIndex + 1 + k) == req.entries[k].term)
    && (m < |req.entries| && p < LastIndex(f) ==> TermAt(f, p + 1) != req.entries[m].term)
  }

  /** The index an answer names: all that is confirmed, or a hint at where to try next. */
  ghost predicate Says(f: State, req: Message, m: nat, said: nat)
    requires req.AppendEntries?
  {
    said == (if req.prevLogIndex > LastIndex(f) then LastIndex(f)
             else if req.prevLogIndex > 0 && TermAt(f, req.prevLogIndex) != req.prevLogTerm then req.prevLogIndex - 1
             else req.prevLogIndex + if Fits(f, req) then |req.entries| else m)
  }

  /** The log and the commit index after the append. */
  ghost predicate Merged(f: State, req: Message, m: nat, r: State)
    requires req.AppendEntries? && f.baseIndex <= LastIndex(f)
  {
    && r.baseIndex == f.baseIndex && r.baseTerm == f.baseTerm
    && (if !Fits(f, req) then r.log == f.log && r.commitIndex == f.commitIndex
        else
          && r.commitIndex == Max(f.commitIndex, Min(req.leaderCommit, req.prevLogIndex + |req.entries|))
          && (if m == |req.entries| then r.log == f.log
              else f.baseIndex <= req.prevLogIndex + m <= LastIndex(f) && m <= |req.entries|
                   && r.log == f.log[..req.prevLogIndex + m - f.baseIndex] + req.entries[m..]))
  }

  /**
   * What becomes of a well-formed append. Its sender is the leader from now on. It succeeds
   * exactly if it fits; then entries the log already has stay, from the first other one on
   * the log is replaced, and the commit index follows the leader's as far as the append
   * vouches for the log. Otherwise log and commit index stay, and the answer hints at the
   * end of the log, at the index before the one that differs, or at the last that agrees.
   */
  lemma AppendAnswered(f: State, from: NodeId, req: Message) returns (m: nat, said: nat)
    requires L.Valid(f) && Leads(f, from, req) && req.AppendEntries? && req.term >= f.currentTerm
    requires EntriesAreContiguous(req)
    ensures var r := Step(f, from, req);
            && r.role == Follower && r.leaderId == Some(from) && r.currentTerm == req.term && r.electionElapsed == 0
            && r.out == f.out + [Addressed(from, AppendEntriesResp(req.term, Fits(f, req), said))]
            && (Begins(f, req) ==> Already(f, req, m))
            && Says(f, req, m, said) && Merged(f, req, m, r)
  {
    hide L.Valid, EntriesAreContiguous, AcceptAppend, Begins, Fits, Already, Says, Merged;
    K.FollowerTakes(f, from, req);
    var a := K.Taken(f, from, req.term);
    TakenIs(f, from, req.term);
    m, said := Accepted(a, from, req);
    G.AcceptAppendFrame(a, from, req);
    SameLog(f, a, req, m, said, AcceptAppend(a, from, req));
  }

  lemma TakenIs(f: State, from: NodeId, t: nat)
    requires t >= f.currentTerm && L.Valid(f)
    ensures var a := K.Taken(f, from, t);
            && f.baseIndex <= f.commitIndex <= LastIndex(f)
            && a.log == f.log && a.baseIndex == f.baseIndex && a.baseTerm == f.baseTerm
            && a.commitIndex == f.commitIndex
            && a.out == f.out && a.currentTerm == t && a.role == Follower && a.leaderId == Some(from)
            && a.electionElapsed == 0 && a.snapshot == f.snapshot && a.lastApplied == f.lastApplied
            && a.pendingRestore == f.pendingRestore
  {
    hide BecomeFollower, L.ValidPersisted;
    FollowerIs(f, t, None);
    FollowerIs(Adopt(f, t), t, Some(from));
    Within(f);
  }

  lemma Within(f: State)
    requires L.Valid(f)
    ensures f.baseIndex <= f.commitIndex <= LastIndex(f)
  {
    hide Contiguous;
  }

  lemma FollowerIs(f: State, t: nat, leader: Option<NodeId>)
    ensures var a := BecomeFollower(f, t, leader);
            && a.log == f.log && a.baseIndex == f.baseIndex && a.baseTerm == f.baseTerm
            && a.commitIndex == f.commitIndex
            && a.out == f.out && a.currentTerm == Max(f.currentTerm, t) && a.role == Follower && a.leaderId == leader
            && a.electionElapsed == 0 && a.snapshot == f.snapshot && a.lastApplied == f.lastApplied
            && a.pendingRestore == f.pendingRestore
  {
    hide Timeout;
  }

  lemma SameLog(f: State, a: State, req: Message, m: nat, said: nat, r: State)
    requires req.AppendEntries? && a.log == f.log && a.baseIndex == f.baseIndex && a.baseTerm == f.baseTerm
    requires a.commitIndex == f.commitIndex
    ensures Begins(a, req) == Begins(f, req) && Fits(a, req) == Fits(f, req) && Already(a, req, m) == Already(f, req, m)
    ensures Says(a, req, m, said) == Says(f, req, m, said) && Merged(a, req, m, r) == Merged(f, req, m, r)
    ensures LastIndex(a) == LastIndex(f) && forall k :: TermAt(a, k) == TermAt(f, k)
  {
    assert forall k :: TermAt(a, k) == TermAt(f, k);
    assert R.AgreesWithCommitted(a, req) == R.AgreesWithCommitted(f, req);
  }

  lemma Accepted(a: State, from: NodeId, req: Message) returns (m: nat, said: nat)
    requires req.AppendEntries? && EntriesAreContiguous(req) && a.currentTerm == req.term
    requires a.baseIndex <= a.commitIndex <= LastIndex(a)
    ensures var r := AcceptAppend(a, from, req);
            && r.out == a.out + [Addressed(from, AppendEntriesResp(req.term, Fits(a, req), said))]
            && (Begins(a, req) ==> Already(a, req, m)) && Says(a, req, m, said) && Merged(a, req, m, r)
  {
    hide Splice, TermAt, R.AgreesWithCommitted, Already, Contiguous, Says, Merged, AcceptAppend;
    m := 0;
    if Begins(a, req) {
      m := MergedAt(a, req);
      said := Splice(a, req.entries, req.prevLogIndex).confirmed;
      Taken(a, from, req, m);
    } else {
      said := if req.prevLogIndex > LastIndex(a) then LastIndex(a) else req.prevLogIndex - 1;
      Untaken(a, from, req, said);
    }
  }

  lemma NotBegun(a: State, from: NodeId, req: Message)
    requires req.AppendEntries? && !Begins(a, req)
    ensures AcceptAppend(a, from, req) ==
            Send(a, from, AppendEntriesResp(a.currentTerm, false, if req.prevLogIndex > LastIndex(a) then LastIndex(a)
                                                                  else req.prevLogIndex - 1))
  {
    hide TermAt, Splice;
  }

  lemma Untaken(a: State, from: NodeId, req: Message, said: nat)
    requires req.AppendEntries? && !Begins(a, req) && !Fits(a, req) && a.baseIndex <= LastIndex(a)
    requires a.currentTerm == req.term
    requires said == if req.prevLogIndex > LastIndex(a) then LastIndex(a) else req.prevLogIndex - 1
    ensures var r := AcceptAppend(a, from, req);
            && r.out == a.out + [Addressed(from, AppendEntriesResp(req.term, Fits(a, req), said))]
            && Says(a, req, 0, said) && Merged(a, req, 0, r)
  {
    NotBegun(a, from, req);
    hide TermAt, Fits, AcceptAppend;
  }

  lemma Begun(a: State, from: NodeId, req: Message)
    requires req.AppendEntries? && Begins(a, req)
    ensures var sp := Splice(a, req.entries, req.prevLogIndex);
            var r, q := AcceptAppend(a, from, req), sp.state;
            && r.log == q.log && r.baseIndex == q.baseIndex && r.baseTerm == q.baseTerm
            && r.commitIndex == (if sp.ok then Max(q.commitIndex, Min(req.leaderCommit, sp.confirmed))
                                 else q.commitIndex)
            && r.out == q.out + [Addressed(from, AppendEntriesResp(q.currentTerm, sp.ok, sp.confirmed))]
  {
    hide TermAt, Splice;
  }

  lemma Taken(a: State, from: NodeId, req: Message, m: nat)
    requires req.AppendEntries? && Begins(a, req) && m <= |req.entries| && a.baseIndex <= LastIndex(a)
    requires SplicedTo(a, req, m) && a.currentTerm == req.term && (Fits(a, req) <==> R.AgreesWithCommitted(a, req))
    ensures var r, said := AcceptAppend(a, from, req), Splice(a, req.entries, req.prevLogIndex).confirmed;
            && r.out == a.out + [Addressed(from, AppendEntriesResp(req.term, Fits(a, req), said))]
            && Says(a, req, m, said) && Merged(a, req, m, r)
  {
    hide TermAt, Splice, Fits, AcceptAppend, R.AgreesWithCommitted, FollowCommit;
    Begun(a, from, req);
  }

  /** The splice in these terms. */
  ghost predicate SplicedTo(a: State, req: Message, m: nat)
    requires req.AppendEntries? && m <= |req.entries|
  {
    var sp, prev := Splice(a, req.entries, req.prevLogIndex), req.prevLogIndex;
    && sp.ok == R.AgreesWithCommitted(a, req) && sp.confirmed == prev + (if sp.ok then |req.entries| else m)
    && sp.state == a.(log := sp.state.log, dirty := sp.state.dirty)
    && (if !sp.ok || m == |req.entries| then sp.state.log == a.log
        else a.baseIndex <= prev + m <= LastIndex(a)
             && sp.state.log == a.log[..prev + m - a.baseIndex] + req.entries[m..])
  }

  lemma MergedAt(a: State, req: Message) returns (m: nat)
    requires req.AppendEntries? && EntriesAreContiguous(req) && req.prevLogIndex <= LastIndex(a)
    requires a.baseIndex <= a.commitIndex <= LastIndex(a)
    ensures m <= |req.entries| && Already(a, req, m)
    ensures SplicedTo(a, req, m)
  {
    hide Splice, TermAt, R.AgreesWithCommitted;
    FitsIfSpliced(a, req);
    m := SpliceForm(a, req.entries, req.prevLogIndex);
  }

  lemma FitsIfSpliced(a: State, req: Message)
    requires req.AppendEntries? && EntriesAreContiguous(req)
    requires a.baseIndex <= a.commitIndex <= LastIndex(a) && req.prevLogIndex <= LastIndex(a)
    ensures R.AgreesWithCommitted(a, req) <==> Splice(a, req.entries, req.prevLogIndex).ok
  {
    hide Splice, TermAt;
    R.SpliceAccepts(a, req.entries, req.prevLogIndex);
  }

  // ---- snapshots --------------------------------------------------------

  /**
   * What becomes of a well-formed snapshot. Its sender is the leader from now on, and it is
   * confirmed. Up to the commit index it changes nothing else; beyond it the state machine
   * is to be restored from it, and of the log stays what follows an entry of its own term at
   * its end.
   */
  lemma SnapshotAnswered(f: State, from: NodeId, req: Message)
    requires L.Valid(f) && Leads(f, from, req) && req.InstallSnapshot? && req.term >= f.currentTerm
    requires SnapshotMetadataIsValid(req)
    ensures var r, i := Step(f, from, req), req.lastIncludedIndex;
            && r.role == Follower && r.leaderId == Some(from) && r.currentTerm == req.term && r.electionElapsed == 0
            && r.out == f.out + [Addressed(from, InstallSnapshotResp(req.term, true, i))]
            && (if i <= f.commitIndex then
                  && r.log == f.log && r.baseIndex == f.baseIndex && r.baseTerm == f.baseTerm
                  && r.snapshot == f.snapshot && r.commitIndex == f.commitIndex && r.lastApplied == f.lastApplied
                  && r.pendingRestore == f.pendingRestore
                else
                  && r.baseIndex == i && r.baseTerm == req.lastIncludedTerm && r.snapshot == Some(req.data)
                  && r.commitIndex == i && r.lastApplied == i && r.pendingRestore && r.dirty
                  && r.log == (if i <= LastIndex(f) && f.log[i - f.baseIndex - 1].term == req.lastIncludedTerm
                               then f.log[i - f.baseIndex..] else []))
  {
    hide L.Valid, SnapshotMetadataIsValid, AcceptSnapshot;
    var a := K.Taken(f, from, req.term);
    TakenIs(f, from, req.term);
    SnapshotAccepted(a, from, req);
    SnapshotTakes(f, from, req);
  }

  lemma SnapshotTakes(f: State, from: NodeId, req: Message)
    requires Leads(f, from, req) && req.InstallSnapshot? && req.term >= f.currentTerm && SnapshotMetadataIsValid(req)
    ensures Step(f, from, req) == AcceptSnapshot(K.Taken(f, from, req.term), from, req)
  {
    hide AcceptSnapshot, SnapshotMetadataIsValid, BecomeFollower;
    K.TermTaken(f, req.term);
  }

  lemma SnapshotAccepted(a: State, from: NodeId, req: Message)
    requires req.InstallSnapshot? && a.baseIndex <= a.commitIndex <= LastIndex(a)
    ensures var r, i := AcceptSnapshot(a, from, req), req.lastIncludedIndex;
            && r.role == a.role && r.leaderId == a.leaderId && r.currentTerm == a.currentTerm
            && r.electionElapsed == a.electionElapsed
            && r.out == a.out + [Addressed(from, InstallSnapshotResp(a.currentTerm, true, i))]
            && (if i <= a.commitIndex then r == a.(out := r.out)
                else
                  && r.baseIndex == i && r.baseTerm == req.lastIncludedTerm && r.snapshot == Some(req.data)
                  && r.commitIndex == i && r.lastApplied == i && r.pendingRestore && r.dirty
                  && r.log == (if i <= LastIndex(a) && a.log[i - a.baseIndex - 1].term == req.lastIncludedTerm
                               then a.log[i - a.baseIndex..] else []))
  {
  }

  // ---- what goes out ----------------------------------------------------

  /** A leader's view of its peers is in order. */
  ghost predicate Tracks(s: State) {
    && s.role == Leader && L.Valid(s)
    && forall p :: p in s.peers ==> p in s.nextIndex && 0 < s.nextIndex[p] <= LastIndex(s) + 1
  }

  /** What a leader has for a peer: all entries from where it resumes, or the snapshot that covers that place. */
  ghost function For(s: State, p: NodeId): Message
    requires Tracks(s) && p in s.peers
  {
    var next := s.nextIndex[p];
    if next <= s.baseIndex then InstallSnapshot(s.currentTerm, s.id, s.baseIndex, s.baseTerm, s.snapshot.value)
    else
      var k := next - 1 - s.baseIndex;
      AppendEntries(s.currentTerm, s.id, next - 1, if k == 0 then s.baseTerm else s.log[k - 1].term, s.log[k..],
                    s.commitIndex)
  }

  /** One message to each of `ps`, in order. */
  ghost function Round(s: State, ps: seq<NodeId>): seq<Addressed>
    requires Tracks(s) && forall p :: p in ps ==> p in s.peers
  {
    seq(|ps|, i requires 0 <= i < |ps| => Addressed(ps[i], For(s, ps[i])))
  }

  lemma SendAppendIs(s: State, p: NodeId)
    requires Tracks(s) && p in s.peers
    ensures SendAppend(s, p).out == s.out + [Addressed(p, For(s, p))]
  {
    hide TermAt, EntriesFrom, Contiguous;
    if s.nextIndex[p] > s.baseIndex {
      Suffix(s, s.nextIndex[p]);
    }
  }

  lemma Suffix(s: State, next: nat)
    requires s.baseIndex < next <= LastIndex(s) + 1
    ensures TermAt(s, next - 1) == if next - 1 == s.baseIndex then s.baseTerm else s.log[next - 2 - s.baseIndex].term
    ensures EntriesFrom(s, next) == s.log[next - 1 - s.baseIndex..]
  {
  }

  lemma ForSame(s: State, a: State)
    requires Tracks(s) && a == s.(out := a.out, snapshotInflight := a.snapshotInflight)
    ensures Tracks(a) && forall p :: p in s.peers ==> For(a, p) == For(s, p)
  {
    assert Durable(a) == Durable(s);
  }

  lemma {:induction false} SendAppendsIs(s: State, ps: seq<NodeId>)
    requires Tracks(s) && forall p :: p in ps ==> p in s.peers
    ensures SendAppends(s, ps).out == s.out + Round(s, ps)
  {
    hide Tracks, For, SendAppend;
    if ps != [] {
      var k := |ps| - 1;
      SendAppendsIs(s, ps[..k]);
      var a := SendAppends(s, ps[..k]);
      ForSame(s, a);
      assert a.peers == s.peers;
      SendAppendIs(a, ps[k]);
      assert Round(s, ps) == Round(s, ps[..k]) + [Addressed(ps[k], For(s, ps[k]))];
    }
  }

  /** A leader's tick sends every peer what it has for it when the heartbeat is due, and otherwise nothing. */
  lemma HeartbeatExactly(s: State)
    requires Tracks(s)
    ensures Tick(s).out == s.out + if s.heartbeatElapsed + 1 >= s.cfg.heartbeatTicks then Round(s, s.peers) else []
  {
    hide SendAppends, CheckQuorum, L.Valid;
    CheckOut(Heartbeat(s));
    var a := s.(heartbeatElapsed := 0);
    assert Durable(a) == Durable(s);
    TracksSame(s, a);
    SendAppendsIs(a, a.peers);
    assert Round(a, a.peers) == Round(s, s.peers);
    assert s.out + [] == s.out;
  }

  lemma TracksSame(s: State, a: State)
    requires Tracks(s) && Durable(a) == Durable(s) && a.id == s.id && a.peers == s.peers && a.role == s.role
    requires a.nextIndex == s.nextIndex
    ensures Tracks(a) && forall p :: p in s.peers ==> For(a, p) == For(s, p)
  {
    hide L.ValidPersisted;
  }

  lemma CheckOut(s: State)
    ensures CheckQuorum(s).out == s.out
  {
    hide Timeout;
  }

  /**
   * After a refusal in its term a leader resumes at the hint's successor, but strictly earlier
   * than before and not before 1, and then sends that peer at once what it has for it; at 1
   * already, it sends nothing.
   */
  lemma RefusalAnswered(s: State, from: NodeId, hint: nat)
    requires Tracks(s) && from in s.peers
    ensures var r, next := Step(s, from, AppendEntriesResp(s.currentTerm, false, hint)), s.nextIndex[from];
            && Tracks(r) && r.log == s.log && r.commitIndex == s.commitIndex && r.matchIndex == s.matchIndex
            && r.nextIndex == s.nextIndex[from := if next == 1 then 1 else Min(hint + 1, next - 1)]
            && r.out == s.out + if next == 1 then [] else [Addressed(from, For(r, from))]
  {
    hide SendAppend, For, L.Valid, Step;
    var next := s.nextIndex[from];
    var to := if next == 1 then 1 else Min(hint + 1, next - 1);
    var a := s.(ackedSinceCheck := s.ackedSinceCheck + {from}, nextIndex := s.nextIndex[from := to]);
    RefusalIs(s, from, hint);
    ResumesTracks(s, from, to);
    SendAppendIs(a, from);
    ForSame(a, SendAppend(a, from));
    assert s.out + [] == s.out;
  }

  lemma RefusalIs(s: State, from: NodeId, hint: nat)
    requires s.role == Leader && from in s.peers && from in s.nextIndex && s.nextIndex[from] > 0
    ensures var next := s.nextIndex[from];
            var a := s.(ackedSinceCheck := s.ackedSinceCheck + {from},
                        nextIndex := s.nextIndex[from := if next == 1 then 1 else Min(hint + 1, next - 1)]);
            Step(s, from, AppendEntriesResp(s.currentTerm, false, hint)) == if next == 1 then a else SendAppend(a, from)
  {
    hide SendAppend, RecordMatch, BecomeFollower;
  }

  lemma ResumesTracks(s: State, from: NodeId, to: nat)
    requires Tracks(s) && from in s.peers && 0 < to <= s.nextIndex[from]
    ensures Tracks(s.(ackedSinceCheck := s.ackedSinceCheck + {from}, nextIndex := s.nextIndex[from := to]))
  {
    hide Contiguous;
  }

  /** A proposal to a leader appends one entry of its term and sends every peer what the leader then has for it. */
  lemma ProposalSent(s: State, command: Command)
    requires Tracks(s) && Distinct(s.peers) && s.id !in s.peers
    ensures var r := Propose(s, command);
            && r.log == s.log + [Entry(s.currentTerm, LastIndex(s) + 1, Some(command))] && r.dirty
            && M.CommitsExactly(s, r) && Tracks(r) && r.out == s.out + Round(r, r.peers)
  {
    hide SendAppends, MaybeAdvanceCommit, L.Valid, Tracks, M.CommitsExactly, For;
    var a := s.(log := s.log + [Entry(s.currentTerm, LastIndex(s) + 1, Some(command))], dirty := true);
    Appended(s, command);
    M.AdvancedExactly(a);
    M.AdvancedFields(a);
    var b := MaybeAdvanceCommit(a);
    AdvancedTracks(a);
    SendAppendsIs(b, b.peers);
    var r := BroadcastAppend(b);
    ForSame(b, r);
    assert Round(r, r.peers) == Round(b, b.peers);
    Moved(s, a, r);
  }

  lemma Appended(s: State, command: Command)
    requires Tracks(s)
    ensures var a := s.(log := s.log + [Entry(s.currentTerm, LastIndex(s) + 1, Some(command))], dirty := true);
            Tracks(a) && a.baseIndex <= a.commitIndex <= LastIndex(a)
  {
    hide Contiguous;
    LogGrows(s.baseIndex, s.baseTerm, s.log, s.currentTerm, Some(command));
  }

  lemma LogGrows(base: nat, baseTerm: nat, log: seq<Entry>, term: nat, c: Option<Command>)
    requires Contiguous(base, baseTerm, log, term) && baseTerm <= term && term > 0
    ensures Contiguous(base, baseTerm, log + [Entry(term, base + |log| + 1, c)], term)
  {
  }

  lemma AdvancedTracks(a: State)
    requires Tracks(a)
    ensures Tracks(MaybeAdvanceCommit(a)) && (a.dirty ==> MaybeAdvanceCommit(a).dirty)
  {
    hide HighestCommittable, Contiguous;
    var n := HighestCommittable(a, LastIndex(a));
  }

  lemma Moved(s: State, a: State, r: State)
    requires a.commitIndex == s.commitIndex && M.CommitsExactly(a, r)
    ensures M.CommitsExactly(s, r)
  {
  }

  // ---- what a drain is given --------------------------------------------

  lemma LastOfBatch(s: State, from: nat, upto: nat)
    requires upto > from
    ensures var here := s.baseIndex < upto <= LastIndex(s) && s.log[upto - s.baseIndex - 1].command.Some?;
            Batch(s, from, upto) ==
              Batch(s, from, upto - 1) + if here then [(upto, s.log[upto - s.baseIndex - 1].command.value)] else []
  {
  }

  lemma {:induction false} BatchIs(s: State, from: nat, upto: nat)
    ensures var b := Batch(s, from, upto);
            && (forall k: nat, c :: (k, c) in b <==>
                  from < k <= upto && s.baseIndex < k <= LastIndex(s) && s.log[k - s.baseIndex - 1].command == Some(c))
            && (forall i, j :: 0 <= i < j < |b| ==> b[i].0 < b[j].0)
    decreases upto
  {
    if upto > from {
      BatchIs(s, from, upto - 1);
      LastOfBatch(s, from, upto);
      hide Batch, Slot;
      var b := Batch(s, from, upto - 1);
      assert forall i :: 0 <= i < |b| ==> b[i] in b && b[i].0 <= upto - 1;
    }
  }

  /**
   * A drain is given everything that is waiting, once: what is durable, if it has changed;
   * a snapshot to restore, if one was installed; all messages; and, in ascending order, exactly
   * the commands committed and not yet handed out.
   */
  lemma ReadyExactly(s: State)
    requires s.baseIndex <= s.lastApplied
    ensures var (ready, r) := TakeReady(s);
            && ready.persist == (if s.dirty then Some(Durable(s)) else None)
            && ready.restore == (if s.pendingRestore then s.snapshot else None)
            && ready.messages == s.out && r.out == [] && !r.dirty && !r.pendingRestore && Durable(r) == Durable(s)
            && ready.appliedFrom == s.lastApplied && ready.appliedUpto == r.lastApplied
            && r.lastApplied == Max(s.lastApplied, s.commitIndex)
            && (forall k: nat, c :: (k, c) in ready.committed <==>
                  s.lastApplied < k <= s.commitIndex && k <= LastIndex(s)
                  && s.log[k - s.baseIndex - 1].command == Some(c))
            && (forall i, j :: 0 <= i < j < |ready.committed| ==> ready.committed[i].0 < ready.committed[j].0)
  {
    BatchIs(s, s.lastApplied, s.commitIndex);
  }
}
