/** Merging a leader's entries into a log: what the entry-by-entry loop amounts to. */
module RaftSplice {
  import opened Model
  import opened RaftSpec

  /** Entries that start right after the log are all appended. */
  lemma {:induction false} SpliceAppends(s: State, entries: seq<Entry>, prev: nat)
    requires LastIndex(s) == prev
    requires forall k :: 0 <= k < |entries| ==> entries[k].index == prev + 1 + k
    ensures Splice(s, entries, prev) ==
            Spliced(s.(log := s.log + entries, dirty := s.dirty || entries != []), prev + |entries|, true)
    decreases |entries|
  {
    if entries == [] {
      assert s.log + entries == s.log;
    } else {
      var e := entries[0];
      SpliceAppends(s.(log := s.log + [e], dirty := true), entries[1..], prev + 1);
      assert s.log + [e] + entries[1..] == s.log + entries;
    }
  }

  /** A conflict above the commit index: the log is cut there and the entries take its place. */
  lemma SpliceOverwrites(s: State, entries: seq<Entry>, prev: nat)
    requires s.baseIndex <= prev < LastIndex(s) && s.commitIndex <= prev && entries != []
    requires forall k :: 0 <= k < |entries| ==> entries[k].index == prev + 1 + k
    requires TermAt(s, prev + 1) != entries[0].term
    ensures Splice(s, entries, prev) ==
            Spliced(s.(log := s.log[..prev - s.baseIndex] + [entries[0]] + entries[1..], dirty := true),
                    prev + |entries|, true)
  {
    var e := entries[0];
    assert e.index == prev + 1;
    var t := s.(log := s.log[..prev - s.baseIndex] + [e], dirty := true);
    SpliceAppends(t, entries[1..], prev + 1);
  }

  /** The log has the first `m` entries after `prev`. */
  ghost predicate Has(s: State, entries: seq<Entry>, prev: nat, m: nat)
    requires m <= |entries|
  {
    && (m > 0 ==> s.baseIndex <= prev + 1 && prev + m <= LastIndex(s))
    && forall k :: 0 <= k < m ==> TermAt(s, prev + 1 + k) == entries[k].term
  }

  /** The log, if it goes on after `p`, does so with an entry of another term than the first of `rest`. */
  ghost predicate Differs(s: State, rest: seq<Entry>, p: nat) {
    rest != [] && p < LastIndex(s) ==> TermAt(s, p + 1) != rest[0].term
  }

  /** What a splice comes to, where `rest` is to replace everything after `p`. */
  ghost predicate Outcome(s: State, rest: seq<Entry>, p: nat, sp: Spliced) {
    if rest == [] then sp == Spliced(s, p, true)
    else if p < LastIndex(s) && p < s.commitIndex then sp == Spliced(s, p, false)
    else s.baseIndex <= p <= LastIndex(s)
         && sp == Spliced(s.(log := s.log[..p - s.baseIndex] + rest, dirty := true), p + |rest|, true)
  }

  /** Exactly the first `m` entries were already there; if there are more, they replace everything after those. */
  ghost predicate SplicedAt(s: State, entries: seq<Entry>, prev: nat, sp: Spliced, m: nat)
    requires m <= |entries|
  {
    Has(s, entries, prev, m) && Differs(s, entries[m..], prev + m) && Outcome(s, entries[m..], prev + m, sp)
  }

  lemma SplicedLater(s: State, entries: seq<Entry>, prev: nat, sp: Spliced, m: nat)
    requires entries != [] && m < |entries| && s.baseIndex <= prev + 1 <= LastIndex(s)
    requires TermAt(s, prev + 1) == entries[0].term && SplicedAt(s, entries[1..], prev + 1, sp, m)
    ensures SplicedAt(s, entries, prev, sp, m + 1)
  {
    hide Has, Differs, Outcome;
    HasLater(s, entries, prev, m);
    assert entries[1..][m..] == entries[m + 1..];
    assert prev + 1 + m == prev + (m + 1);
  }

  lemma HasLater(s: State, entries: seq<Entry>, prev: nat, m: nat)
    requires m < |entries| && s.baseIndex <= prev + 1 <= LastIndex(s)
    requires TermAt(s, prev + 1) == entries[0].term && Has(s, entries[1..], prev + 1, m)
    ensures Has(s, entries, prev, m + 1)
  {
    hide TermAt;
    forall k | 0 <= k < m + 1 ensures TermAt(s, prev + 1 + k) == entries[k].term {
      if k > 0 {
        assert entries[1..][k - 1] == entries[k];
        assert prev + 1 + 1 + (k - 1) == prev + 1 + k;
      }
    }
  }

  /**
   * A splice keeps the matching entries, refuses to touch committed ones, and
   * otherwise replaces the log from the first difference on.
   */
  lemma {:induction false} SpliceForm(s: State, entries: seq<Entry>, prev: nat) returns (m: nat)
    requires s.baseIndex <= s.commitIndex <= LastIndex(s) && prev <= LastIndex(s)
    requires forall k :: 0 <= k < |entries| ==> entries[k].index == prev + 1 + k && entries[k].term > 0
    ensures m <= |entries| && SplicedAt(s, entries, prev, Splice(s, entries, prev), m)
    decreases |entries|
  {
    hide Splice, TermAt, SplicedAt;
    m := 0;
    if entries == [] || prev == LastIndex(s) {
      SplicedAtEnd(s, entries, prev);
    } else if TermAt(s, prev + 1) == entries[0].term {
      SpliceSkips(s, entries, prev);
      var k := SpliceForm(s, entries[1..], prev + 1);
      m := k + 1;
      SplicedLater(s, entries, prev, Splice(s, entries, prev), k);
    } else {
      SplicedConflict(s, entries, prev);
    }
  }

  lemma SplicedAtEnd(s: State, entries: seq<Entry>, prev: nat)
    requires s.baseIndex <= s.commitIndex <= LastIndex(s) && (entries == [] || prev == LastIndex(s))
    requires forall k :: 0 <= k < |entries| ==> entries[k].index == prev + 1 + k
    ensures SplicedAt(s, entries, prev, Splice(s, entries, prev), 0)
  {
    if entries != [] {
      SpliceAppends(s, entries, prev);
      assert s.log[..prev - s.baseIndex] == s.log;
    }
  }

  lemma SplicedConflict(s: State, entries: seq<Entry>, prev: nat)
    requires s.baseIndex <= s.commitIndex <= LastIndex(s) && prev < LastIndex(s) && entries != []
    requires forall k :: 0 <= k < |entries| ==> entries[k].index == prev + 1 + k
    requires TermAt(s, prev + 1) != entries[0].term
    ensures SplicedAt(s, entries, prev, Splice(s, entries, prev), 0)
  {
    if prev >= s.commitIndex {
      SpliceOverwrites(s, entries, prev);
      assert s.log[..prev - s.baseIndex] + [entries[0]] + entries[1..] == s.log[..prev - s.baseIndex] + entries[0..];
    }
  }

  /** An entry that is already there is passed over; it cannot lie under the snapshot. */
  lemma SpliceSkips(s: State, entries: seq<Entry>, prev: nat)
    requires prev < LastIndex(s) && entries != [] && entries[0].index == prev + 1 && entries[0].term > 0
    requires TermAt(s, prev + 1) == entries[0].term
    ensures Splice(s, entries, prev) == Splice(s, entries[1..], prev + 1) && s.baseIndex <= prev + 1
  {
  }
}
