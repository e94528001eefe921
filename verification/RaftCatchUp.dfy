/**
 * Replication gets there: if nothing is lost between a leader and a follower, a few
 * exchanges of an append and its answer bring the follower to the leader's whole log,
 * wherever the leader thinks it has to begin, unless the follower's snapshot lies in
 * between.
 */
module RaftCatchUp {
  import opened Model
  import opened RaftSpec
  import opened RaftSplice
  import opened RaftNode
  import C = RaftCluster
  import D = RaftDisruption
  import E = RaftElections
  import G = RaftProgress
  import K = RaftFork
  import L = RaftLocal
  import O = RaftCareful
  import P = Protocol
  import R = RaftRefusals
  import S = RaftSafety
  import V = RaftCommit

  // ---- the two of them --------------------------------------------------

  /** A whole log up to term `t`: numbered from 1, with positive terms that never descend. */
  ghost predicate Numbered(log: seq<Entry>, t: nat) {
    && (forall k :: 0 <= k < |log| ==> log[k].index == k + 1 && 0 < log[k].term <= t)
    && (forall j, k :: 0 <= j <= k < |log| ==> log[j].term <= log[k].term)
  }

  /** Equal terms at an index mean equal logs up to it. */
  ghost predicate Matched(a: seq<Entry>, b: seq<Entry>) {
    forall k :: 0 <= k < |a| && k < |b| && a[k].term == b[k].term ==> a[..k + 1] == b[..k + 1]
  }

  /** Two logs of one history, `full` being committed up to `c`. */
  ghost predicate Related(lead: seq<Entry>, full: seq<Entry>, c: nat, t: nat) {
    Numbered(lead, t) && Matched(full, lead) && c <= |full| && c <= |lead| && full[..c] == lead[..c]
  }

  /** A leader with the log `lead`, and where it thinks `p` resumes and matches. */
  ghost predicate Leads(s: State, p: NodeId, lead: seq<Entry>) {
    && s.role == Leader && s.currentTerm > 0 && p in s.peers && L.Valid(s) && Holds(s, lead)
    && p in s.nextIndex && p in s.matchIndex && s.matchIndex[p] <= |lead|
    && 0 < s.nextIndex[p] <= |lead| + 1
  }

  /** A member of at most that term with the log `full`, its effects taken. */
  ghost predicate Follows(f: State, leader: NodeId, t: nat, full: seq<Entry>) {
    && leader in f.peers && f.currentTerm <= t && L.Valid(f) && Holds(f, full) && f.out == []
  }

  /**
   * The leader can get through to the follower: what the follower has folded into its
   * snapshot lies before where the leader begins, or before the leader's own snapshot.
   */
  ghost predicate Apart(s: State, f: State, lead: seq<Entry>, full: seq<Entry>) {
    && Leads(s, f.id, lead) && Follows(f, s.id, s.currentTerm, full)
    && Related(lead, full, f.commitIndex, s.currentTerm)
    && (f.baseIndex <= s.baseIndex || f.baseIndex < s.nextIndex[f.id])
  }

  /** What the leader sends when it begins above its base. */
  function Append(s: State, p: NodeId): Message {
    var next := Get(s.nextIndex, p, LastIndex(s) + 1);
    AppendEntries(s.currentTerm, s.id, Minus(next, 1), TermAt(s, Minus(next, 1)), EntriesFrom(s, next), s.commitIndex)
  }

  /** The leader sends what it has for the follower; the follower takes it and answers; the leader takes the answer. */
  function Exchange(s: State, f: State): (State, State) {
    var a := SendAppend(s.(out := []), f.id);
    if a.out == [] then (s, f)
    else
      var g := Step(f, s.id, a.out[0].msg);
      if g.out == [] then (s, f)
      else (TakeReady(Step(a.(out := []), f.id, g.out[0].msg)).1, TakeReady(g).1)
  }

  function Exchanges(s: State, f: State, n: nat): (State, State)
    decreases n
  {
    if n == 0 then (s, f)
    else
      var (a, b) := Exchange(s, f);
      Exchanges(a, b, n - 1)
  }

  /** The follower has the leader's log, and the leader knows. */
  ghost predicate Caught(s: State, f: State, lead: seq<Entry>) {
    && s.role == Leader && f.id in s.matchIndex && s.matchIndex[f.id] == |lead|
    && exists full :: Holds(f, full) && lead <= full
  }

  // ---- the follower -----------------------------------------------------

  /** The append in terms of the leader's whole log. */
  lemma AppendIs(s: State, p: NodeId, lead: seq<Entry>)
    requires Leads(s, p, lead) && Numbered(lead, s.currentTerm) && s.baseIndex < s.nextIndex[p]
    ensures var m, prev := Append(s, p), s.nextIndex[p] - 1;
            && m == AppendEntries(s.currentTerm, s.id, prev, TermOf(lead, prev), lead[prev..], s.commitIndex)
            && EntriesAreContiguous(m)
  {
    hide TermAt, EntriesFrom, Contiguous, Numbered;
    LiveSuffix(s, lead, s.nextIndex[p]);
    Stretch(lead, s.nextIndex[p] - 1, s.currentTerm);
  }

  /** A stretch of a whole log continues what is before it. */
  lemma Stretch(lead: seq<Entry>, prev: nat, t: nat)
    requires Numbered(lead, t) && prev <= |lead|
    ensures Contiguous(prev, TermOf(lead, prev), lead[prev..], t) && (prev == 0 <==> TermOf(lead, prev) == 0)
  {
    var entries := lead[prev..];
    forall k | 0 <= k < |entries|
      ensures entries[k].index == prev + 1 + k && 0 < entries[k].term <= t && TermOf(lead, prev) <= entries[k].term
    {
      assert entries[k] == lead[prev + k];
    }
    forall j, k | 0 <= j <= k < |entries| ensures entries[j].term <= entries[k].term {
      assert entries[j] == lead[prev + j] && entries[k] == lead[prev + k];
    }
  }

  /** What a follower reads in its log is what its whole log has there. */
  lemma TermIs(f: State, full: seq<Entry>, k: nat)
    requires Holds(f, full) && f.baseIndex <= k <= |full|
    ensures TermAt(f, k) == TermOf(full, k)
  {
  }

  /** How a follower of the term answers, its log being `full` and the append a stretch of `lead`. */
  lemma AnswerIs(f: State, from: NodeId, req: Message, lead: seq<Entry>, full: seq<Entry>)
    requires L.Valid(f) && Holds(f, full) && f.out == [] && Related(lead, full, f.commitIndex, f.currentTerm)
    requires req.AppendEntries? && req.term == f.currentTerm && EntriesAreContiguous(req)
    requires f.baseIndex <= req.prevLogIndex <= |lead| && req.prevLogTerm == TermOf(lead, req.prevLogIndex)
             && req.entries == lead[req.prevLogIndex..]
    ensures var r, prev := AcceptAppend(f, from, req), req.prevLogIndex;
            && |r.out| == 1 && r.out[0].to == from
            && (if prev > |full| then r.out[0].msg == AppendEntriesResp(f.currentTerm, false, |full|)
                else if prev > 0 && TermOf(full, prev) != TermOf(lead, prev)
                then prev > f.baseIndex && r.out[0].msg == AppendEntriesResp(f.currentTerm, false, prev - 1)
                else r.out[0].msg == AppendEntriesResp(f.currentTerm, true, |lead|))
  {
    hide Splice, TermAt, Matched, Numbered, Contiguous;
    var prev := req.prevLogIndex;
    if prev <= |full| {
      TermIs(f, full, prev);
      if 0 < prev == f.baseIndex {
        CommittedSame(full, lead, f.commitIndex, f.currentTerm, prev);
      }
      if prev == 0 || TermOf(full, prev) == TermOf(lead, prev) {
        AllAccepted(f, req, lead, full);
        G.SpliceFrame(f, req.entries, prev);
      }
    }
  }

  lemma AllAccepted(f: State, req: Message, lead: seq<Entry>, full: seq<Entry>)
    requires L.Valid(f) && Holds(f, full) && Related(lead, full, f.commitIndex, f.currentTerm)
    requires req.AppendEntries? && EntriesAreContiguous(req) && req.prevLogIndex <= |full|
    requires f.baseIndex <= req.prevLogIndex <= |lead| && req.entries == lead[req.prevLogIndex..]
    ensures var sp := Splice(f, req.entries, req.prevLogIndex); sp.ok && sp.confirmed == |lead|
  {
    hide Splice, TermAt;
    NothingCommittedDiffers(f, req, lead, full);
    R.SpliceAccepts(f, req.entries, req.prevLogIndex);
    ConfirmsAll(f, req.entries, req.prevLogIndex);
  }

  lemma NothingCommittedDiffers(f: State, req: Message, lead: seq<Entry>, full: seq<Entry>)
    requires Holds(f, full) && Related(lead, full, f.commitIndex, f.currentTerm) && req.AppendEntries?
    requires f.baseIndex <= req.prevLogIndex <= |lead| && req.entries == lead[req.prevLogIndex..]
    ensures R.AgreesWithCommitted(f, req)
  {
    var prev := req.prevLogIndex;
    forall k: nat | prev < k <= prev + |req.entries| && k <= f.commitIndex
      ensures TermAt(f, k) == req.entries[k - prev - 1].term
    {
      TermIs(f, full, k);
      assert full[k - 1] == full[..f.commitIndex][k - 1] == lead[..f.commitIndex][k - 1];
      assert req.entries[k - prev - 1] == lead[k - 1];
    }
  }

  lemma ConfirmsAll(f: State, entries: seq<Entry>, prev: nat)
    requires f.baseIndex <= f.commitIndex <= LastIndex(f) && prev <= LastIndex(f)
    requires forall k :: 0 <= k < |entries| ==> entries[k].index == prev + 1 + k && entries[k].term > 0
    requires Splice(f, entries, prev).ok
    ensures Splice(f, entries, prev).confirmed == prev + |entries|
  {
    var m := SpliceForm(f, entries, prev);
  }

  /** After an accepted append the whole log is the leader's, or extends it. */
  lemma AcceptedHolds(f: State, from: NodeId, req: Message, lead: seq<Entry>, full: seq<Entry>)
    returns (after: seq<Entry>)
    requires L.Valid(f) && Holds(f, full) && Related(lead, full, f.commitIndex, f.currentTerm)
    requires req.AppendEntries? && req.term == f.currentTerm && EntriesAreContiguous(req)
    requires f.baseIndex <= req.prevLogIndex <= |lead| && req.entries == lead[req.prevLogIndex..]
    requires req.prevLogIndex <= |full| && req.prevLogTerm == TermOf(lead, req.prevLogIndex)
    requires req.prevLogIndex == 0 || TermOf(full, req.prevLogIndex) == TermOf(lead, req.prevLogIndex)
    ensures Holds(AcceptAppend(f, from, req), after) && lead <= after
  {
    hide Splice, TermAt;
    var prev, entries := req.prevLogIndex, req.entries;
    TermIs(f, full, prev);
    NothingCommittedDiffers(f, req, lead, full);
    R.SpliceAccepts(f, entries, prev);
    var sp := Splice(f, entries, prev);
    assert sp.ok;
    ConfirmsAll(f, entries, prev);
    after := SplicedHolds(f, entries, prev, lead, full);
    FollowsCommit(sp.state, Min(req.leaderCommit, sp.confirmed), after);
  }

  lemma FollowsCommit(s: State, c: nat, full: seq<Entry>)
    requires Holds(s, full) && c <= |full|
    ensures Holds(FollowCommit(s, c), full)
  {
  }

  lemma SplicedHolds(f: State, entries: seq<Entry>, prev: nat, lead: seq<Entry>, full: seq<Entry>)
    returns (after: seq<Entry>)
    requires Holds(f, full) && Related(lead, full, f.commitIndex, f.currentTerm) && Splice(f, entries, prev).ok
    requires f.baseIndex <= prev <= |lead| && prev <= |full| && entries == lead[prev..]
    requires prev == 0 || TermOf(full, prev) == TermOf(lead, prev)
    ensures Holds(Splice(f, entries, prev).state, after) && lead <= after
  {
    hide Splice, TermAt;
    forall k | 0 <= k < |entries| ensures entries[k].index == prev + 1 + k && entries[k].term > 0 {
      assert entries[k] == lead[prev + k];
    }
    var m := SpliceForm(f, entries, prev);
    if m > 0 {
      assert TermAt(f, prev + 1 + (m - 1)) == entries[m - 1].term;
    }
    SharedUpTo(f, entries, prev, lead, full, m);
    after := if m == |entries| then full else lead;
    SplicedAfter(f, entries, prev, lead, full, m, Splice(f, entries, prev));
  }

  lemma SplicedAfter(f: State, entries: seq<Entry>, prev: nat, lead: seq<Entry>, full: seq<Entry>, m: nat, sp: Spliced)
    requires Holds(f, full) && f.commitIndex <= |lead| && f.baseIndex <= prev <= |lead| && entries == lead[prev..]
    requires m <= |entries| && SplicedAt(f, entries, prev, sp, m) && sp.ok
    requires prev + m <= |full| && full[..prev + m] == lead[..prev + m]
    ensures var after := if m == |entries| then full else lead; Holds(sp.state, after) && lead <= after
  {
    hide TermAt;
    var p := prev + m;
    if m == |entries| {
      assert lead == lead[..p];
    } else {
      Restitched(f, full, lead, p);
      assert entries[m..] == lead[p..];
    }
  }

  /** The logs agree up to the last entry that was already there. */
  lemma SharedUpTo(f: State, entries: seq<Entry>, prev: nat, lead: seq<Entry>, full: seq<Entry>, m: nat)
    requires Holds(f, full) && Matched(full, lead) && f.baseIndex <= prev <= |lead| && prev <= |full|
    requires entries == lead[prev..] && m <= |entries| && (prev == 0 || TermOf(full, prev) == TermOf(lead, prev))
    requires m > 0 ==> prev + m <= LastIndex(f) && TermAt(f, prev + m) == entries[m - 1].term
    ensures prev + m <= |full| && full[..prev + m] == lead[..prev + m]
  {
    hide TermAt;
    var p := prev + m;
    if m > 0 {
      TermIs(f, full, p);
      assert entries[m - 1] == lead[p - 1];
    }
    if p > 0 {
      assert full[p - 1].term == lead[p - 1].term;
      assert full[..p - 1 + 1] == lead[..p - 1 + 1];
    }
  }

  lemma Restitched(f: State, full: seq<Entry>, lead: seq<Entry>, p: nat)
    requires Holds(f, full) && f.baseIndex <= p <= |full| && p <= |lead| && full[..p] == lead[..p]
    ensures f.log[..p - f.baseIndex] + lead[p..] == lead[f.baseIndex..]
    ensures TermOf(full, f.baseIndex) == TermOf(lead, f.baseIndex)
  {
    assert f.log[..p - f.baseIndex] == full[f.baseIndex..p] == full[..p][f.baseIndex..] == lead[..p][f.baseIndex..];
    if f.baseIndex > 0 {
      assert full[f.baseIndex - 1] == full[..p][f.baseIndex - 1] == lead[..p][f.baseIndex - 1];
    }
  }

  // ---- the leader -------------------------------------------------------

  /** A refusal makes the leader begin earlier, as the hint says. */
  lemma LeaderRefused(s: State, p: NodeId, lead: seq<Entry>, hint: nat)
    requires Leads(s, p, lead) && hint + 2 <= s.nextIndex[p]
    ensures var r := TakeReady(Step(s, p, AppendEntriesResp(s.currentTerm, false, hint))).1;
            && Leads(r, p, lead) && r.nextIndex[p] == hint + 1 && r.currentTerm == s.currentTerm && r.id == s.id
            && r.baseIndex == s.baseIndex
  {
    var resp := AppendEntriesResp(s.currentTerm, false, hint);
    L.StepSound(s, p, resp);
    SoundValid(s, Step(s, p, resp));
    hide Step, SendAppend, L.Valid, L.Sound;
    RefusalRewinds(s, p, hint);
    var a := s.(ackedSinceCheck := s.ackedSinceCheck + {p}, nextIndex := s.nextIndex[p := hint + 1]);
    var b := SendAppend(a, p);
    assert b == a.(out := b.out, snapshotInflight := b.snapshotInflight);
    hide TakeReady;
    TakenFields(b);
  }

  lemma TakenFields(b: State)
    ensures var r := TakeReady(b).1;
            r == b.(out := [], dirty := false, pendingRestore := false, lastApplied := r.lastApplied)
  {
    hide Batch;
  }

  lemma RefusalRewinds(s: State, p: NodeId, hint: nat)
    requires s.role == Leader && p in s.peers && p in s.nextIndex && hint + 2 <= s.nextIndex[p]
    ensures Step(s, p, AppendEntriesResp(s.currentTerm, false, hint)) ==
            SendAppend(s.(ackedSinceCheck := s.ackedSinceCheck + {p}, nextIndex := s.nextIndex[p := hint + 1]), p)
  {
    hide SendAppend, RecordMatch, BecomeFollower;
  }

  lemma SoundValid(s: State, r: State)
    requires L.Valid(s) && L.Sound(s, r)
    ensures L.Valid(TakeReady(r).1)
  {
  }

  /** An acceptance makes it record that the follower has everything. */
  lemma LeaderAccepted(s: State, p: NodeId, lead: seq<Entry>)
    requires Leads(s, p, lead)
    ensures var r := TakeReady(Step(s, p, AppendEntriesResp(s.currentTerm, true, |lead|))).1;
            r.role == Leader && p in r.matchIndex && r.matchIndex[p] == |lead|
  {
    hide MaybeAdvanceCommit, SendAppends, Batch, L.Valid;
    var a := s.(ackedSinceCheck := s.ackedSinceCheck + {p});
    assert Step(s, p, AppendEntriesResp(s.currentTerm, true, |lead|)) == RecordMatch(a, p, |lead|);
    var b := a.(matchIndex := a.matchIndex[p := |lead|], nextIndex := a.nextIndex[p := |lead| + 1]);
    Advanced(b);
  }

  lemma Advanced(b: State)
    ensures var c := MaybeAdvanceCommit(b);
            && c.role == b.role && c.matchIndex == b.matchIndex
            && BroadcastAppend(c).role == b.role && BroadcastAppend(c).matchIndex == b.matchIndex
  {
    hide HighestCommittable, SendAppends;
  }

  // ---- one exchange -----------------------------------------------------

  /** The follower as it is once it has taken in the leader's term. */
  function Taken(f: State, from: NodeId, t: nat): State { BecomeFollower(Adopt(f, t), t, Some(from)) }

  lemma TakenSame(f: State, from: NodeId, t: nat, full: seq<Entry>)
    requires Follows(f, from, t, full) && t > 0
    ensures var a := Taken(f, from, t);
            && L.Valid(a) && Holds(a, full) && a.out == [] && a.currentTerm == t && a.commitIndex == f.commitIndex
            && a.baseIndex == f.baseIndex && a.log == f.log && a.peers == f.peers && a.id == f.id
  {
    hide Contiguous, BecomeFollower;
    var a := Adopt(f, t);
    FollowerFields(f, t, None);
    FollowerFields(a, t, Some(from));
    LaterContiguous(f.baseIndex, f.baseTerm, f.log, f.currentTerm, t);
  }

  lemma FollowerFields(f: State, t: nat, leader: Option<NodeId>)
    ensures var a := BecomeFollower(f, t, leader);
            && a.log == f.log && a.baseIndex == f.baseIndex && a.baseTerm == f.baseTerm && a.snapshot == f.snapshot
            && a.commitIndex == f.commitIndex && a.out == f.out && a.peers == f.peers && a.id == f.id
            && a.currentTerm == Max(f.currentTerm, t) && a.role == Follower
            && a.votedFor == (if t > f.currentTerm then None else f.votedFor)
  {
    hide Timeout;
  }

  lemma LaterContiguous(base: nat, baseTerm: nat, log: seq<Entry>, x: nat, y: nat)
    requires Contiguous(base, baseTerm, log, x) && x <= y
    ensures Contiguous(base, baseTerm, log, y)
  {
  }

  lemma FollowerTakes(f: State, from: NodeId, req: Message)
    requires from in f.peers && req.AppendEntries? && req.leaderId == from && req.term >= f.currentTerm
    requires EntriesAreContiguous(req)
    ensures Step(f, from, req) == AcceptAppend(Taken(f, from, req.term), from, req)
  {
    hide AcceptAppend, EntriesAreContiguous, BecomeFollower;
    TermTaken(f, req.term);
  }

  lemma TermTaken(f: State, t: nat)
    requires t >= f.currentTerm
    ensures Adopt(f, t).currentTerm == t
  {
    hide Timeout;
  }

  /** A refused append leaves the follower's log, commit index and base as they are. */
  lemma RefusedSame(a: State, from: NodeId, req: Message, full: seq<Entry>)
    requires req.AppendEntries? && Holds(a, full) && L.Valid(a) && a.out == []
    requires req.prevLogIndex > LastIndex(a)
             || (req.prevLogIndex > 0 && TermAt(a, req.prevLogIndex) != req.prevLogTerm)
    ensures var r := TakeReady(AcceptAppend(a, from, req)).1;
            && Holds(r, full) && L.Valid(r) && r.out == [] && r.commitIndex == a.commitIndex
            && r.baseIndex == a.baseIndex
            && r.currentTerm == a.currentTerm && r.peers == a.peers && r.id == a.id
  {
    hide TermAt, Contiguous;
  }

  lemma AppendSent(s: State, p: NodeId)
    requires p in s.nextIndex && s.baseIndex < s.nextIndex[p]
    ensures SendAppend(s.(out := []), p) == Send(s.(out := []), p, Append(s, p))
  {
  }

  /** An append sent, answered, and the answer taken. */
  lemma AppendExchanged(s: State, f: State, lead: seq<Entry>)
    requires Leads(s, f.id, lead) && s.baseIndex < s.nextIndex[f.id] && s.id in f.peers
    requires var g := Step(f, s.id, Append(s, f.id)); g.out != []
    ensures var g := Step(f, s.id, Append(s, f.id));
            Exchange(s, f) == (TakeReady(Step(s.(out := []), f.id, g.out[0].msg)).1, TakeReady(g).1)
  {
    hide Step, TakeReady, TermAt, EntriesFrom, Append;
    var a := SendAppend(s.(out := []), f.id);
    AppendSent(s, f.id);
    assert a.out == [Addressed(f.id, Append(s, f.id))] && a.(out := []) == s.(out := []);
  }

  /**
   * An append above the leader's base: the follower has caught up, or the leader begins
   * strictly earlier next time, not before what the follower has committed.
   */
  lemma AppendMoves(s: State, f: State, lead: seq<Entry>, full: seq<Entry>)
    requires Apart(s, f, lead, full) && s.baseIndex < s.nextIndex[f.id]
    ensures var (a, b) := Exchange(s, f);
            && b.id == f.id
            && (Caught(a, b, lead)
                || (Apart(a, b, lead, full) && a.nextIndex[f.id] < s.nextIndex[f.id] && a.baseIndex == s.baseIndex
                    && f.commitIndex < a.nextIndex[f.id] && b.commitIndex == f.commitIndex))
  {
    hide Taken, AcceptAppend, L.Valid, Holds, Step, Related, EntriesAreContiguous, TermAt, TermOf, Exchange, TakeReady,
         Append;
    var prev := s.nextIndex[f.id] - 1;
    RelatedNumbered(lead, full, f.commitIndex, s.currentTerm);
    AppendIs(s, f.id, lead);
    var req := Append(s, f.id);
    FollowerTakes(f, s.id, req);
    TakenSame(f, s.id, s.currentTerm, full);
    var t := Taken(f, s.id, s.currentTerm);
    AnswerIs(t, s.id, req, lead, full);
    AppendExchanged(s, f, lead);
    var q := s.(out := []);
    QuietLeads(s, f.id, lead);
    WholeLength(t, full);
    if prev > |full| {
      LeaderRefused(q, f.id, lead, |full|);
      RefusedSame(t, s.id, req, full);
    } else if prev > 0 && TermOf(full, prev) != TermOf(lead, prev) {
      LeaderRefused(q, f.id, lead, prev - 1);
      TermIs(t, full, prev);
      AboveCommit(full, lead, f.commitIndex, s.currentTerm, prev);
      RefusedSame(t, s.id, req, full);
    } else {
      LeaderAccepted(q, f.id, lead);
      var after := AcceptedHolds(t, s.id, req, lead, full);
      TakenHolds(AcceptAppend(t, s.id, req), after);
      AcceptedId(t, s.id, req);
    }
  }

  lemma QuietLeads(s: State, p: NodeId, lead: seq<Entry>)
    requires Leads(s, p, lead)
    ensures Leads(s.(out := []), p, lead)
  {
  }

  lemma AboveCommit(full: seq<Entry>, lead: seq<Entry>, c: nat, t: nat, prev: nat)
    requires Related(lead, full, c, t) && 0 < prev <= |full| && prev <= |lead|
    requires TermOf(full, prev) != TermOf(lead, prev)
    ensures c < prev
  {
    if prev <= c {
      CommittedSame(full, lead, c, t, prev);
    }
  }

  lemma CommittedSame(full: seq<Entry>, lead: seq<Entry>, c: nat, t: nat, k: nat)
    requires Related(lead, full, c, t) && 0 < k <= c
    ensures full[k - 1] == lead[k - 1]
  {
    assert full[k - 1] == full[..c][k - 1] == lead[..c][k - 1];
  }

  lemma WholeLength(f: State, full: seq<Entry>)
    requires Holds(f, full)
    ensures |full| == LastIndex(f) && f.baseIndex <= f.commitIndex <= |full|
  {
  }

  lemma AcceptedId(t: State, from: NodeId, req: Message)
    requires req.AppendEntries?
    ensures TakeReady(AcceptAppend(t, from, req)).1.id == t.id
  {
    G.AcceptAppendFrame(t, from, req);
  }

  lemma TakenHolds(r: State, full: seq<Entry>)
    requires Holds(r, full)
    ensures Holds(TakeReady(r).1, full)
  {
  }

  lemma RelatedNumbered(lead: seq<Entry>, full: seq<Entry>, c: nat, t: nat)
    requires Related(lead, full, c, t)
    ensures Numbered(lead, t)
  {
  }

  // ---- a snapshot -------------------------------------------------------

  function SnapshotOf(s: State): Message
    requires s.snapshot.Some?
  {
    InstallSnapshot(s.currentTerm, s.id, s.baseIndex, s.baseTerm, s.snapshot.value)
  }

  lemma SnapshotExchanged(s: State, f: State, lead: seq<Entry>)
    requires Leads(s, f.id, lead) && s.nextIndex[f.id] <= s.baseIndex
    ensures s.snapshot.Some? && SnapshotMetadataIsValid(SnapshotOf(s))
    ensures var g := Step(f, s.id, SnapshotOf(s));
            var a := s.(out := [], snapshotInflight := s.snapshotInflight[f.id := s.baseIndex]);
            g.out != [] ==> Exchange(s, f) == (TakeReady(Step(a, f.id, g.out[0].msg)).1, TakeReady(g).1)
  {
    hide Step, TakeReady;
    var a := SendAppend(s.(out := []), f.id);
    assert a.out == [Addressed(f.id, SnapshotOf(s))];
    assert a.(out := []) == s.(out := [], snapshotInflight := s.snapshotInflight[f.id := s.baseIndex]);
  }

  lemma SnapshotTakes(f: State, from: NodeId, req: Message)
    requires from in f.peers && req.InstallSnapshot? && req.leaderId == from && req.term >= f.currentTerm
    requires SnapshotMetadataIsValid(req)
    ensures Step(f, from, req) == AcceptSnapshot(Taken(f, from, req.term), from, req)
  {
    hide AcceptSnapshot, SnapshotMetadataIsValid, BecomeFollower;
    TermTaken(f, req.term);
  }

  /** A follower that takes a snapshot of the leader's log has committed that far, and its log still agrees. */
  lemma SnapshotTaken(f: State, from: NodeId, req: Message, lead: seq<Entry>, full: seq<Entry>)
    returns (after: seq<Entry>)
    requires L.Valid(f) && Holds(f, full) && f.out == [] && Related(lead, full, f.commitIndex, f.currentTerm)
    requires req.InstallSnapshot? && req.term == f.currentTerm && SnapshotMetadataIsValid(req)
    requires f.baseIndex <= req.lastIncludedIndex <= |lead|
             && req.lastIncludedTerm == TermOf(lead, req.lastIncludedIndex)
    ensures var r, i := AcceptSnapshot(f, from, req), req.lastIncludedIndex;
            && r.out == [Addressed(from, InstallSnapshotResp(f.currentTerm, true, i))]
            && Holds(r, after) && Related(lead, after, r.commitIndex, f.currentTerm)
            && r.baseIndex <= i <= r.commitIndex && r.id == f.id && r.peers == f.peers && r.currentTerm == f.currentTerm
  {
    hide TermAt, Contiguous, Numbered;
    var i := req.lastIncludedIndex;
    after := full;
    if i > f.commitIndex {
      if i <= LastIndex(f) && TermAt(f, i) == req.lastIncludedTerm {
        TermIs(f, full, i);
        assert full[..i - 1 + 1] == lead[..i - 1 + 1];
        assert f.log[i - f.baseIndex..] == full[i..];
      } else {
        after := lead[..i];
        CutMatched(lead, i);
      }
    }
  }

  lemma CutMatched(lead: seq<Entry>, i: nat)
    requires i <= |lead|
    ensures Matched(lead[..i], lead)
  {
    forall k | 0 <= k < i && lead[..i][k].term == lead[k].term ensures lead[..i][..k + 1] == lead[..k + 1] {
    }
  }

  /** The leader takes note: the follower has what the snapshot holds, and resumes after it. */
  lemma LeaderConfirmed(s: State, p: NodeId, lead: seq<Entry>)
    requires Leads(s, p, lead) && p in s.snapshotInflight && s.snapshotInflight[p] == s.baseIndex
    ensures var r := TakeReady(Step(s, p, InstallSnapshotResp(s.currentTerm, true, s.baseIndex))).1;
            && Leads(r, p, lead) && r.nextIndex[p] == Max(s.baseIndex, s.matchIndex[p]) + 1
            && r.currentTerm == s.currentTerm && r.id == s.id && r.baseIndex == s.baseIndex
  {
    var resp := InstallSnapshotResp(s.currentTerm, true, s.baseIndex);
    L.StepSound(s, p, resp);
    SoundValid(s, Step(s, p, resp));
    hide Step, L.Valid, L.Sound, MaybeAdvanceCommit, BroadcastAppend, RecordMatch;
    var a := s.(ackedSinceCheck := s.ackedSinceCheck + {p}, snapshotInflight := s.snapshotInflight - {p});
    ConfirmRecords(s, p);
    RecordKeeps(a, p, s.baseIndex, lead);
    hide TakeReady;
    TakenFields(RecordMatch(a, p, s.baseIndex));
  }

  lemma ConfirmRecords(s: State, p: NodeId)
    requires s.role == Leader && p in s.peers && p in s.snapshotInflight && s.snapshotInflight[p] == s.baseIndex
    ensures Step(s, p, InstallSnapshotResp(s.currentTerm, true, s.baseIndex)) ==
            RecordMatch(s.(ackedSinceCheck := s.ackedSinceCheck + {p}, snapshotInflight := s.snapshotInflight - {p}), p,
                        s.baseIndex)
  {
    hide RecordMatch, BecomeFollower;
  }

  lemma RecordKeeps(s: State, p: NodeId, acknowledged: nat, lead: seq<Entry>)
    requires Holds(s, lead) && p in s.matchIndex
    ensures var r, matched := RecordMatch(s, p, acknowledged), Max(acknowledged, s.matchIndex[p]);
            && Holds(r, lead) && r.role == s.role && r.currentTerm == s.currentTerm && r.id == s.id
            && r.baseIndex == s.baseIndex && r.peers == s.peers
            && r.matchIndex == s.matchIndex[p := matched] && r.nextIndex == s.nextIndex[p := matched + 1]
  {
    hide HighestCommittable, SendAppends;
  }

  /** After a snapshot the follower has committed as far as it goes, and the leader begins above it. */
  lemma SnapshotMoves(s: State, f: State, lead: seq<Entry>, full: seq<Entry>) returns (after: seq<Entry>)
    requires Apart(s, f, lead, full) && s.nextIndex[f.id] <= s.baseIndex
    ensures var (a, b) := Exchange(s, f);
            && b.id == f.id && Apart(a, b, lead, after) && a.baseIndex == s.baseIndex < a.nextIndex[f.id]
            && s.baseIndex <= b.commitIndex
  {
    hide Taken, AcceptSnapshot, L.Valid, Holds, Step, Related, SnapshotMetadataIsValid, TermOf, Exchange, TakeReady;
    SnapshotExchanged(s, f, lead);
    var req := SnapshotOf(s);
    SnapshotTakes(f, s.id, req);
    TakenSame(f, s.id, s.currentTerm, full);
    var t := Taken(f, s.id, s.currentTerm);
    BaseTermIs(s, lead);
    after := SnapshotTaken(t, s.id, req, lead, full);
    var a := s.(out := [], snapshotInflight := s.snapshotInflight[f.id := s.baseIndex]);
    InflightLeads(s, f.id, lead);
    LeaderConfirmed(a, f.id, lead);
    L.StepSound(f, s.id, req);
    SoundValid(f, Step(f, s.id, req));
    TakenHolds(AcceptSnapshot(t, s.id, req), after);
    TakenFields(AcceptSnapshot(t, s.id, req));
  }

  lemma BaseTermIs(s: State, lead: seq<Entry>)
    requires Holds(s, lead)
    ensures s.baseIndex <= |lead| && s.baseTerm == TermOf(lead, s.baseIndex)
  {
  }

  lemma InflightLeads(s: State, p: NodeId, lead: seq<Entry>)
    requires Leads(s, p, lead)
    ensures Leads(s.(out := [], snapshotInflight := s.snapshotInflight[p := s.baseIndex]), p, lead)
  {
  }

  // ---- the theorem ------------------------------------------------------

  lemma OneMore(s: State, f: State, a: State, b: State, n: nat)
    requires Exchange(s, f) == (a, b)
    ensures Exchanges(s, f, n + 1) == Exchanges(a, b, n)
  {
    hide Exchange;
  }

  lemma NoMore(s: State, f: State)
    ensures Exchanges(s, f, 0) == (s, f)
  {
  }

  /**
   * Replication gets there. Take a leader and a follower of at most its term, with any logs
   * that agree as far as the follower has committed, any idea of the leader where the
   * follower resumes, and any compaction on either side, as long as the follower's snapshot
   * ends before that place or within the leader's own. If nothing is lost, then after at
   * most as many exchanges as that place plus the log's length and two, the follower's log
   * begins with the leader's, and the leader knows it.
   */
  lemma {:induction false} CatchesUp(s: State, f: State, lead: seq<Entry>, full: seq<Entry>) returns (n: nat)
    requires Apart(s, f, lead, full)
    ensures var (a, b) := Exchanges(s, f, n); Caught(a, b, lead)
    ensures n <= s.nextIndex[f.id] + |lead| + 2
    ensures s.nextIndex[f.id] <= s.baseIndex ==> n <= |lead| + 2
    ensures s.baseIndex <= f.commitIndex && s.baseIndex < s.nextIndex[f.id] ==> n <= s.nextIndex[f.id]
    decreases if s.baseIndex <= f.commitIndex then 0 else 1,
              if (s.baseIndex <= f.commitIndex) == (s.nextIndex[f.id] <= s.baseIndex) then 1 else 0, s.nextIndex[f.id]
  {
    hide Exchange, Exchanges, Caught, L.Valid, Holds, Related;
    var (a, b) := Exchange(s, f);
    NoMore(a, b);
    var k := 0;
    if s.nextIndex[f.id] <= s.baseIndex {
      var after := SnapshotMoves(s, f, lead, full);
      k := CatchesUp(a, b, lead, after);
    } else {
      AppendMoves(s, f, lead, full);
      if !Caught(a, b, lead) {
        k := CatchesUp(a, b, lead, full);
      }
    }
    OneMore(s, f, a, b, k);
    n := k + 1;
  }

  // ---- in runs of the group ---------------------------------------------

  lemma GoodNumbered(g: P.Global, log: seq<Entry>, t: nat)
    requires P.WellFormed(g) && P.GoodLog(g, log, t)
    ensures Numbered(log, t)
  {
    forall k | 0 <= k < |log| ensures log[k].index == k + 1 && 0 < log[k].term <= t {
      assert P.EntryOk(g, log, k);
    }
    forall j, k | 0 <= j <= k < |log| ensures log[j].term <= log[k].term {
      assert P.Ordered(log, j, k);
    }
  }

  lemma GoodMatched(g: P.Global, a: seq<Entry>, x: nat, b: seq<Entry>, y: nat)
    requires P.WellFormed(g) && P.GoodLog(g, a, x) && P.GoodLog(g, b, y)
    ensures Matched(a, b)
  {
    forall k | 0 <= k < |a| && k < |b| && a[k].term == b[k].term ensures a[..k + 1] == b[..k + 1] {
      P.LogMatching(g, a, b, k, x, y);
    }
  }

  /** What the history knows of a leader and a member of at most its term. */
  lemma HistoryRelates(boot: Replicated, g: P.Global, n: NodeId, s: State, sm: Replicated, m: NodeId, f: State,
                       fm: Replicated)
    requires P.Inv(g) && NodeOk(boot, g, n, s, sm) && NodeOk(boot, g, m, f, fm)
    requires s.role == Leader && f.currentTerm <= s.currentTerm
    ensures n in g.core && m in g.core
    ensures Related(g.core[n].log, g.core[m].log, f.commitIndex, s.currentTerm)
  {
    hide P.Committed, P.LeadersOk, P.Complete, P.GoodLog, P.VotesOk, P.AcksOk, P.Kept, P.VotedFor;
    GoodNumbered(g, g.core[n].log, g.core[n].term);
    GoodMatched(g, g.core[m].log, g.core[m].term, g.core[n].log, g.core[n].term);
    V.OwnCommitted(g, m);
    V.LeaderParts(boot, g, n, s, sm);
    O.LaterItself(g);
    hide NodeOk, P.Inv, Numbered, Matched;
    E.Unpack(boot, g, n, s, sm);
    E.Unpack(boot, g, m, f, fm);
    S.LeaderLogHolds(g, g, g.core[m].log, f.commitIndex, f.currentTerm, s.currentTerm);
    K.CommittedWithin(g, g.core[m].log, f.commitIndex, f.currentTerm);
  }

  /** At every moment of a run a leader and another member of at most its term are so related. */
  lemma RunRelates(boot: Replicated, b: seq<C.Cluster>, ev: seq<C.Event>, i: nat, n: NodeId, m: NodeId)
    returns (lead: seq<Entry>, full: seq<Entry>)
    requires C.Run(boot, b, ev) && i < |b| && n in b[i].member && m in b[i].member && n != m
    requires b[i].member[n].raft.role == Leader && b[i].member[m].raft.currentTerm <= b[i].member[n].raft.currentTerm
    ensures var s, f := b[i].member[n].raft, b[i].member[m].raft;
            && s.id == n && f.id == m && Leads(s, m, lead) && Follows(f, n, s.currentTerm, full)
            && Related(lead, full, f.commitIndex, s.currentTerm)
  {
    hide C.Run;
    var hs := C.Histories(boot, b, ev);
    D.RunCounted(boot, b, ev, i);
    assert C.Agrees(boot, b[i], hs[i]) && D.Counted(b[i], m);
    hide P.Inv, C.NetOk, D.Counted;
    var x, y := b[i].member[n], b[i].member[m];
    assert C.MemberOk(boot, hs[i], n, x) && C.MemberOk(boot, hs[i], m, y);
    hide C.Agrees, D.AllCounted;
    lead, full := hs[i].core[n].log, hs[i].core[m].log;
    HistoryRelates(boot, hs[i], n, x.raft, x.sm, m, y.raft, y.sm);
    LeaderIs(boot, hs[i], n, x.raft, x.sm, m);
    MemberIs(boot, hs[i], m, y.raft, y.sm, n);
    D.Unsent(b[i], m);
  }

  lemma LeaderIs(boot: Replicated, g: P.Global, n: NodeId, s: State, sm: Replicated, p: NodeId)
    requires NodeOk(boot, g, n, s, sm) && s.role == Leader && L.Valid(s) && p in g.ids && p != n
    ensures n in g.core && s.id == n && Leads(s, p, g.core[n].log)
  {
    hide L.Valid;
  }

  lemma MemberIs(boot: Replicated, g: P.Global, m: NodeId, f: State, fm: Replicated, leader: NodeId)
    requires NodeOk(boot, g, m, f, fm) && leader in g.ids && leader != m
    ensures m in g.core && f.id == m && leader in f.peers && Holds(f, g.core[m].log)
  {
  }

  /**
   * In every run of the group, wherever a leader and another member of at most its term have
   * got to: if the member's snapshot ends before the place where the leader resumes, or within
   * the leader's own, then exchanges between the two alone bring the member to the leader's
   * whole log.
   */
  lemma RunCatchesUp(boot: Replicated, b: seq<C.Cluster>, ev: seq<C.Event>, i: nat, n: NodeId, m: NodeId)
    returns (lead: seq<Entry>, k: nat)
    requires C.Run(boot, b, ev) && i < |b| && n in b[i].member && m in b[i].member && n != m
    requires b[i].member[n].raft.role == Leader && b[i].member[m].raft.currentTerm <= b[i].member[n].raft.currentTerm
    requires var s, f := b[i].member[n].raft, b[i].member[m].raft;
             f.baseIndex <= s.baseIndex || f.baseIndex < Get(s.nextIndex, m, 0)
    ensures Holds(b[i].member[n].raft, lead)
    ensures var (s, f) := Exchanges(b[i].member[n].raft, b[i].member[m].raft, k); Caught(s, f, lead)
  {
    hide C.Run, Exchanges, Caught, Related;
    var full;
    lead, full := RunRelates(boot, b, ev, i, n, m);
    k := CatchesUp(b[i].member[n].raft, b[i].member[m].raft, lead, full);
  }
}
