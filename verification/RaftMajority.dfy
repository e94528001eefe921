/** Exactly when a majority decides: who is elected, and what is committed. */
module RaftMajority {
  import opened Model
  import opened RaftSpec
  import L = RaftLocal
  import V = RaftCommit

  /** More than half of the group, `n` members of it being this one and `|peers|` others. */
  predicate MajorityOf(count: nat, s: State) { 2 * count > |s.peers| + 1 }

  // ---- elections --------------------------------------------------------

  /** A vote decides an election exactly if it completes a majority of the group. */
  lemma ElectedExactly(s: State, from: NodeId)
    requires s.role == Candidate && from in s.peers
    ensures var r := Step(s, from, RequestVoteResp(s.currentTerm, true, false));
            && r.currentTerm == s.currentTerm
            && (if MajorityOf(|s.votes + {from}|, s) then r.role == Leader && r.leaderId == Some(s.id)
                else r == s.(votes := s.votes + {from}))
  {
    hide BecomeLeader;
    OfficeIs(s.(votes := s.votes + {from}));
  }

  lemma OfficeIs(s: State)
    ensures var r := BecomeLeader(s); r.role == Leader && r.leaderId == Some(s.id) && r.currentTerm == s.currentTerm
  {
    hide SendAppends, Timeout, AllAt;
  }

  /** A pre-vote opens an election exactly if it completes a majority of the group. */
  lemma OpenedExactly(s: State, from: NodeId, term: nat)
    requires s.role == PreCandidate && from in s.peers && term <= s.currentTerm
    ensures var r := Step(s, from, RequestVoteResp(term, true, true));
            if MajorityOf(|s.votes + {from}|, s) then r.currentTerm == s.currentTerm + 1 && r.votedFor == Some(s.id)
            else r == s.(votes := s.votes + {from})
  {
    hide StartElection;
    OpeningIs(s.(votes := s.votes + {from}));
  }

  lemma OpeningIs(s: State)
    ensures var r := StartElection(s); r.currentTerm == s.currentTerm + 1 && r.votedFor == Some(s.id)
  {
    hide SendAll, SendAppends, Timeout, AllAt;
  }

  // ---- commits ----------------------------------------------------------

  /** The members known to hold the log up to `k`: the leader itself, and the peers that match. */
  function Holders(s: State, k: nat): set<NodeId> { V.MatchSet(s.peers, s.matchIndex, k) + {s.id} }

  /** An entry of the leader's own term that more than half of the group is known to hold. */
  ghost predicate Decided(s: State, k: nat) {
    s.baseIndex <= k <= LastIndex(s) && TermAt(s, k) == s.currentTerm && MajorityOf(|Holders(s, k)|, s)
  }

  /** The commit index is the highest decided index, or as before if there is none above it. */
  ghost predicate CommitsExactly(s: State, r: State) {
    && r.commitIndex >= s.commitIndex && (r.commitIndex > s.commitIndex ==> Decided(r, r.commitIndex))
    && (forall k :: r.commitIndex < k ==> !Decided(r, k))
  }

  lemma CommittableDecided(s: State, k: nat)
    requires Distinct(s.peers) && s.id !in s.peers && s.baseIndex <= k <= LastIndex(s)
    ensures Committable(s, k) <==> Decided(s, k)
  {
    hide TermAt;
    V.MatchingIsCount(s.peers, s.matchIndex, k);
    assert s.id !in V.MatchSet(s.peers, s.matchIndex, k);
  }

  lemma AdvancedExactly(a: State)
    requires Distinct(a.peers) && a.id !in a.peers && a.baseIndex <= a.commitIndex <= LastIndex(a)
    ensures var r := MaybeAdvanceCommit(a); CommitsExactly(a, r) && CommitsExactly(a, BroadcastAppend(r))
  {
    hide TermAt, SendAppends, Committable, Decided;
    var r := MaybeAdvanceCommit(a);
    var c := HighestCommittable(a, LastIndex(a));
    if c > a.commitIndex {
      CommittableDecided(a, c);
    }
    SameDecided(a, r);
    SameDecided(r, BroadcastAppend(r));
    forall k | c < k ensures !Decided(r, k) {
      if a.baseIndex <= k <= LastIndex(a) {
        CommittableDecided(a, k);
      } else if Decided(a, k) {
        DecidedWithin(a, k);
      }
    }
  }

  lemma DecidedWithin(s: State, k: nat)
    requires Decided(s, k)
    ensures s.baseIndex <= k <= LastIndex(s)
  {
  }

  lemma SameDecided(a: State, r: State)
    requires r.peers == a.peers && r.id == a.id && r.matchIndex == a.matchIndex && r.log == a.log
    requires r.baseIndex == a.baseIndex && r.baseTerm == a.baseTerm && r.currentTerm == a.currentTerm
    ensures forall k :: Decided(a, k) <==> Decided(r, k)
  {
  }

  /** How far a peer that succeeds is known to hold the log: as far as it says and there is one, no less than before. */
  function Raised(s: State, from: NodeId, said: nat): nat { Max(Min(said, LastIndex(s)), Get(s.matchIndex, from, 0)) }

  /**
   * What a successful answer to an append commits: the leader records it, resumes after it, and
   * its commit index becomes the highest index of an entry of its own term that more than half
   * of the group is known to hold.
   */
  lemma AnswerCommits(s: State, from: NodeId, said: nat)
    requires s.role == Leader && from in s.peers && L.Valid(s) && Distinct(s.peers) && s.id !in s.peers
    ensures var r := Step(s, from, AppendEntriesResp(s.currentTerm, true, said));
            && r.role == Leader && r.log == s.log && r.matchIndex == s.matchIndex[from := Raised(s, from, said)]
            && r.nextIndex == s.nextIndex[from := Raised(s, from, said) + 1]
            && CommitsExactly(s, r)
  {
    hide MaybeAdvanceCommit, BroadcastAppend, L.ValidPersisted, Step, Decided;
    var a := s.(ackedSinceCheck := s.ackedSinceCheck + {from});
    var m := Raised(s, from, said);
    var b := a.(matchIndex := a.matchIndex[from := m], nextIndex := a.nextIndex[from := m + 1]);
    Within(s);
    AdvancedExactly(b);
    AdvancedFields(b);
    AnswerRecords(s, from, said);
  }

  lemma AnswerRecords(s: State, from: NodeId, said: nat)
    requires s.role == Leader && from in s.peers
    ensures Step(s, from, AppendEntriesResp(s.currentTerm, true, said)) ==
            RecordMatch(s.(ackedSinceCheck := s.ackedSinceCheck + {from}), from, Min(said, LastIndex(s)))
  {
    hide RecordMatch;
  }

  /** A confirmed snapshot counts for no more than what was sent to that peer. */
  lemma SnapshotCommits(s: State, from: NodeId, said: nat)
    requires s.role == Leader && from in s.peers && L.Valid(s) && Distinct(s.peers) && s.id !in s.peers
    ensures var r := Step(s, from, InstallSnapshotResp(s.currentTerm, true, said));
            var m := Max(Min(said, Get(s.snapshotInflight, from, 0)), Get(s.matchIndex, from, 0));
            && r.role == Leader && r.log == s.log && r.matchIndex == s.matchIndex[from := m]
            && r.nextIndex == s.nextIndex[from := m + 1] && CommitsExactly(s, r)
  {
    hide MaybeAdvanceCommit, BroadcastAppend, L.ValidPersisted, Step, Decided;
    var sent := Get(s.snapshotInflight, from, 0);
    var a := s.(ackedSinceCheck := s.ackedSinceCheck + {from}, snapshotInflight := s.snapshotInflight - {from});
    var m := Max(Min(said, sent), Get(s.matchIndex, from, 0));
    var b := a.(matchIndex := a.matchIndex[from := m], nextIndex := a.nextIndex[from := m + 1]);
    Within(s);
    AdvancedExactly(b);
    AdvancedFields(b);
    SnapshotRecords(s, from, said);
  }

  lemma SnapshotRecords(s: State, from: NodeId, said: nat)
    requires s.role == Leader && from in s.peers
    ensures Step(s, from, InstallSnapshotResp(s.currentTerm, true, said)) ==
            RecordMatch(s.(ackedSinceCheck := s.ackedSinceCheck + {from},
                           snapshotInflight := s.snapshotInflight - {from}),
                        from, Min(said, Get(s.snapshotInflight, from, 0)))
  {
    hide RecordMatch;
  }

  lemma Within(s: State)
    requires L.Valid(s)
    ensures s.baseIndex <= s.commitIndex <= LastIndex(s)
  {
  }

  lemma AdvancedFields(b: State)
    ensures var c := MaybeAdvanceCommit(b);
            && c == b.(commitIndex := c.commitIndex, dirty := c.dirty)
            && BroadcastAppend(c) == c.(out := BroadcastAppend(c).out,
                                        snapshotInflight := BroadcastAppend(c).snapshotInflight)
  {
    hide HighestCommittable, SendAppends;
  }
}
