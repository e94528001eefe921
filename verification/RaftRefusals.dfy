/**
 * Exactly which appends a follower accepts, and what becomes of a leader whose
 * appends it refuses.
 */
module RaftRefusals {
  import opened Model
  import opened RaftSpec
  import opened RaftSplice
  import L = RaftLocal

  /** The answer to the last message handled. */
  function Answer(s: State): (m: Message)
    requires s.out != []
  {
    s.out[|s.out| - 1].msg
  }

  /** The request names the term this member has at every index up to its commit index that it covers. */
  ghost predicate AgreesWithCommitted(f: State, req: Message)
    requires req.AppendEntries?
  {
    forall k: nat :: req.prevLogIndex < k <= req.prevLogIndex + |req.entries| && k <= f.commitIndex ==>
      TermAt(f, k) == req.entries[k - req.prevLogIndex - 1].term
  }

  /**
   * Exactly which well-formed appends of the current term succeed: those that fit
   * the log at `prev` and contradict no term at or below the commit index. An
   * index already folded into the snapshot reads as term 0 and so contradicts.
   */
  lemma AcceptedExactly(f: State, from: NodeId, req: Message)
    requires L.Valid(f) && req.AppendEntries? && EntriesAreContiguous(req) && req.term == f.currentTerm
    ensures var r := AcceptAppend(f, from, req);
            && r.out != [] && Answer(r).AppendEntriesResp?
            && (Answer(r).success <==>
                  && req.prevLogIndex <= LastIndex(f)
                  && (req.prevLogIndex == 0 || TermAt(f, req.prevLogIndex) == req.prevLogTerm)
                  && AgreesWithCommitted(f, req))
  {
    hide TermAt, Splice;
    if req.prevLogIndex <= LastIndex(f) && (req.prevLogIndex == 0 || TermAt(f, req.prevLogIndex) == req.prevLogTerm) {
      SpliceAccepts(f, req.entries, req.prevLogIndex);
    }
  }

  /** The splice goes through exactly when no entry at or below the commit index differs in term. */
  lemma {:induction false} SpliceAccepts(s: State, entries: seq<Entry>, prev: nat)
    requires s.baseIndex <= s.commitIndex <= LastIndex(s) && prev <= LastIndex(s)
    requires forall k :: 0 <= k < |entries| ==> entries[k].index == prev + 1 + k
    ensures Splice(s, entries, prev).ok <==>
            forall k: nat :: prev < k <= prev + |entries| && k <= s.commitIndex ==>
              TermAt(s, k) == entries[k - prev - 1].term
    decreases |entries|
  {
    if entries == [] || prev == LastIndex(s) {
      SpliceAppendsAll(s, entries, prev);
    } else if TermAt(s, prev + 1) == entries[0].term {
      hide TermAt;
      SpliceAccepts(s, entries[1..], prev + 1);
      forall k: nat | prev + 1 < k <= prev + |entries|
        ensures TermAt(s, k) == entries[k - prev - 1].term <==> TermAt(s, k) == entries[1..][k - (prev + 1) - 1].term
      {
      }
    } else if prev >= s.commitIndex {
      SpliceOverwrites(s, entries, prev);
    } else {
      hide TermAt;
      assert prev < prev + 1 <= s.commitIndex;
    }
  }

  lemma SpliceAppendsAll(s: State, entries: seq<Entry>, prev: nat)
    requires entries == [] || prev == LastIndex(s)
    requires forall k :: 0 <= k < |entries| ==> entries[k].index == prev + 1 + k
    ensures Splice(s, entries, prev).ok
  {
    if entries != [] {
      SpliceAppends(s, entries, prev);
    }
  }

  /**
   * A truthful leader, whose entries are the committed ones wherever both are
   * known, is still refused by a follower whose snapshot covers the first of them.
   */
  lemma RefusedBelowBase(f: State, from: NodeId, req: Message)
    requires L.Valid(f) && req.AppendEntries? && EntriesAreContiguous(req) && req.term == f.currentTerm
    requires req.entries != [] && req.prevLogIndex <= LastIndex(f)
    requires f.baseIndex <= req.prevLogIndex && req.prevLogIndex > 0 ==> TermAt(f, req.prevLogIndex) == req.prevLogTerm
    requires forall k: nat ::
               req.prevLogIndex < k <= req.prevLogIndex + |req.entries| && f.baseIndex <= k <= f.commitIndex ==>
                 TermAt(f, k) == req.entries[k - req.prevLogIndex - 1].term
    ensures var r := AcceptAppend(f, from, req);
            && r.out != [] && Answer(r).AppendEntriesResp?
            && (Answer(r).success <==> req.prevLogIndex >= f.baseIndex || (req.prevLogIndex == 0 && f.baseIndex == 1))
  {
    hide AcceptAppend;
    AcceptedExactly(f, from, req);
    if req.prevLogIndex < f.baseIndex {
      if req.prevLogIndex > 0 {
        assert TermAt(f, req.prevLogIndex) == 0;
      } else if f.baseIndex > 1 {
        assert TermAt(f, 1) == 0 && req.entries[0].term > 0;
        assert !AgreesWithCommitted(f, req);
      }
    }
  }

  /**
   * A leader that has not compacted and resumes at the start makes no progress
   * with a follower that has folded two entries or more: the append it sends is
   * refused with hint 0, and the refusal neither moves `next` nor sends anything.
   * Every later heartbeat repeats this.
   */
  lemma StuckAtStart(s: State, f: State)
    requires s.role == Leader && s.baseIndex == 0 && f.id in s.nextIndex && s.nextIndex[f.id] == 1
    requires L.Valid(s) && L.Valid(f) && s.log != [] && s.currentTerm == f.currentTerm && f.baseIndex >= 2
    ensures var m := Answer(SendAppend(s, f.id));
            var a := Answer(AcceptAppend(f, s.id, m));
            && m == AppendEntries(s.currentTerm, s.id, 0, 0, s.log, s.commitIndex) && EntriesAreContiguous(m)
            && a == AppendEntriesResp(s.currentTerm, false, 0) && !Splice(f, m.entries, 0).ok
            && HandleAppendResp(s, f.id, a) == s.(ackedSinceCheck := s.ackedSinceCheck + {f.id})
  {
    var m := AppendEntries(s.currentTerm, s.id, 0, 0, s.log, s.commitIndex);
    FirstAppend(s, f.id);
    FirstAppendRefused(f, s.id, m);
    NothingLowerToTry(s, f.id);
  }

  lemma FirstAppend(s: State, p: NodeId)
    requires s.role == Leader && s.baseIndex == 0 && p in s.nextIndex && s.nextIndex[p] == 1
    requires L.Valid(s) && s.log != []
    ensures SendAppend(s, p).out != []
    ensures Answer(SendAppend(s, p)) == AppendEntries(s.currentTerm, s.id, 0, 0, s.log, s.commitIndex)
    ensures EntriesAreContiguous(Answer(SendAppend(s, p)))
  {
    assert s.log[0..] == s.log;
  }

  lemma FirstAppendRefused(f: State, from: NodeId, m: Message)
    requires L.Valid(f) && f.baseIndex >= 2
    requires m.AppendEntries? && EntriesAreContiguous(m) && m.prevLogIndex == 0 && m.entries != []
    ensures AcceptAppend(f, from, m).out != []
    ensures Answer(AcceptAppend(f, from, m)) == AppendEntriesResp(f.currentTerm, false, 0)
    ensures !Splice(f, m.entries, 0).ok
  {
    assert TermAt(f, 1) == 0 && m.entries[0].index == 1 <= f.commitIndex;
    assert Splice(f, m.entries, 0) == Spliced(f, 0, false);
  }

  lemma NothingLowerToTry(s: State, p: NodeId)
    requires s.role == Leader && p in s.nextIndex && s.nextIndex[p] == 1
    ensures HandleAppendResp(s, p, AppendEntriesResp(s.currentTerm, false, 0)) ==
            s.(ackedSinceCheck := s.ackedSinceCheck + {p})
  {
    assert s.nextIndex[p := 1] == s.nextIndex;
  }
}
