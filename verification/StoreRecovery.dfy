/**
 * What a member finds on its disk after a crash: exactly what survives a torn
 * log, and for every point at which a save can be cut short, exactly when opening
 * refuses and what it returns otherwise.
 */
module StoreRecovery {
  import opened Model
  import opened RaftSpec
  import opened RaftStore
  import L = RaftLocal

  /** The files of `d` hold `p`; the meta file may still be the one of an earlier save with the same hard state. */
  ghost predicate Stored(c: Codec, d: Disk, p: Persisted) {
    && L.ValidPersisted(p) && ReadSnapshot(c, d) == Some(p.snapshot) && d.log == Some(LogText(c, HeaderFor(p), p.log))
    && ReadMeta(c, d).Some?
    && (var m := ReadMeta(c, d).value;
        m.currentTerm == p.currentTerm && m.votedFor == p.votedFor && Max(m.commitIndex, p.baseIndex) == p.commitIndex)
    && (d.meta.None? ==> p.baseIndex == 0 && p.log == [])
  }

  /** What is stored is recovered. */
  lemma StoredRecovers(c: Codec, d: Disk, p: Persisted)
    requires Sane(c) && Stored(c, d, p)
    ensures Recover(c, d) == Some(p)
  {
    hide Sane, ParseLog;
    LogRoundTrip(c, HeaderFor(p), p.log);
  }

  /** What is recovered is stored, once opening has rewritten the log. */
  lemma RecoveredStored(c: Codec, d: Disk, p: Persisted)
    requires Recover(c, d) == Some(p)
    ensures Stored(c, d.(log := Some(LogText(c, HeaderFor(p), p.log))), p)
  {
    hide ParseLog, LogText;
  }

  /** How the durable state of a running member may move: what local robustness guarantees. */
  ghost predicate Succeeds(p: Persisted, q: Persisted) {
    && L.ValidPersisted(p) && L.ValidPersisted(q)
    && p.currentTerm <= q.currentTerm && p.commitIndex <= q.commitIndex && p.baseIndex <= q.baseIndex
    && (p.currentTerm == q.currentTerm && p.votedFor.Some? ==> q.votedFor == p.votedFor)
    && (forall i {:trigger Live(q, i)} :: q.baseIndex < i <= p.commitIndex ==> Live(q, i) == Live(p, i))
  }

  function Live(p: Persisted, i: nat): Option<Entry> {
    if p.baseIndex < i <= p.baseIndex + |p.log| then Some(p.log[i - p.baseIndex - 1]) else None
  }

  /** Any two states a member saves, the later one being the successor of the earlier. */
  lemma EngineSuccessor(id: NodeId, peers: seq<NodeId>, cfg: Config, draws: nat -> nat, p: Persisted,
                        calls: seq<L.Call>, more: seq<L.Call>)
    requires L.ValidPersisted(p)
    ensures var x := L.Saved(New(id, peers, cfg, draws, p), p);
            Succeeds(L.PerformAll(x, calls).disk, L.PerformAll(x, calls + more).disk)
  {
    hide L.PerformAll, L.ValidPersisted;
    L.Robust(id, peers, cfg, draws, p, calls, more);
    var x := L.Saved(New(id, peers, cfg, draws, p), p);
    var a, b := L.PerformAll(x, calls), L.PerformAll(x, calls + more);
    LiveIsEntryAt(a.state);
    LiveIsEntryAt(b.state);
  }

  lemma SucceedsSelf(p: Persisted)
    requires L.ValidPersisted(p)
    ensures Succeeds(p, p)
  {
  }

  lemma SucceedsTransitive(p: Persisted, q: Persisted, r: Persisted)
    requires Succeeds(p, q) && Succeeds(q, r)
    ensures Succeeds(p, r)
  {
    hide L.ValidPersisted, Live;
    forall i {:trigger Live(r, i)} | r.baseIndex < i <= p.commitIndex ensures Live(r, i) == Live(p, i) {
      assert Live(q, i) == Live(p, i);
    }
  }

  /** Whatever an operation does to a valid member, its durable state moves to a successor. */
  lemma SoundSucceeds(s: State, r: State)
    requires L.Valid(s) && L.Sound(s, r)
    ensures Succeeds(Durable(s), Durable(r))
  {
    hide L.ValidPersisted;
    LiveIsEntryAt(s);
    LiveIsEntryAt(r);
  }

  lemma LiveIsEntryAt(s: State)
    ensures forall i :: Live(Durable(s), i) == L.EntryAt(s, i)
  {
  }

  /** A completed save is what is stored. */
  lemma SaveCompletes(c: Codec, d: Disk, p: Persisted, q: Persisted)
    requires Sane(c) && Stored(c, d, p) && Succeeds(p, q)
    ensures Stored(c, Saving(c, d, q, AllWritten), q)
    ensures Recover(c, Saving(c, d, q, AllWritten)) == Some(q)
  {
    hide LogText, Contiguous;
    assert c.meta(MetaFor(q)) != [] && c.readMeta(c.meta(MetaFor(q))) == Some(MetaFor(q));
    StoredRecovers(c, Saving(c, d, q, AllWritten), q);
  }

  /**
   * Torn tails: of a log cut anywhere, recovery keeps exactly the whole records,
   * and it refuses exactly when a committed entry is among the lost ones.
   */
  lemma TornRecovery(c: Codec, d: Disk, p: Persisted, k: nat)
    requires Sane(c) && L.ValidPersisted(p) && d == Saving(c, d, p, AllWritten)
             && (p.snapshot.None? ==> d.snapshot.None?)
    requires k <= |LogText(c, HeaderFor(p), p.log)|
    ensures var m := Surviving(c, HeaderFor(p), p.log, k);
            Recover(c, d.(log := Some(LogText(c, HeaderFor(p), p.log)[..k]))) ==
            if p.commitIndex <= p.baseIndex + m then Some(p.(log := p.log[..m])) else None
  {
    hide ParseLog, Surviving;
    var m := Surviving(c, HeaderFor(p), p.log, k);
    assert c.meta(MetaFor(p)) != [] && c.readMeta(c.meta(MetaFor(p))) == Some(MetaFor(p));
    TornLog(c, HeaderFor(p), p.log, k);
    L.ContiguousCut(p.baseIndex, p.baseTerm, p.log, m, p.currentTerm);
  }

  // ---- crashes during a save --------------------------------------------

  function LastTermOf(p: Persisted): nat {
    if p.log == [] then p.baseTerm else p.log[|p.log| - 1].term
  }

  /** When opening refuses what a save of `q` over `p` leaves at `stage`. */
  predicate Refuses(p: Persisted, q: Persisted, stage: Stage) {
    || (stage == SnapshotWritten && p.baseIndex == 0 && q.baseIndex > 0)
    || (stage == LogWritten && LastTermOf(q) > p.currentTerm)
  }

  /** What opening returns otherwise. */
  function Interrupted(p: Persisted, q: Persisted, stage: Stage): Persisted {
    match stage
    case Nothing => p
    case SnapshotWritten => p.(snapshot := q.snapshot)
    case LogWritten => q.(currentTerm := p.currentTerm, votedFor := p.votedFor,
                          commitIndex := Max(p.commitIndex, q.baseIndex))
    case AllWritten => q
  }

  /** Once the snapshot is written, it is the new one that is read. */
  lemma SavedSnapshot(c: Codec, d: Disk, p: Persisted, q: Persisted, stage: Stage)
    requires Sane(c) && Stored(c, d, p) && Succeeds(p, q) && stage != Nothing
    ensures ReadSnapshot(c, Saving(c, d, q, stage)) == Some(q.snapshot)
  {
    hide LogText, Contiguous;
  }

  lemma SnapshotOnly(c: Codec, d: Disk, p: Persisted, q: Persisted)
    requires Sane(c) && Stored(c, d, p) && Succeeds(p, q)
    ensures Recover(c, Saving(c, d, q, SnapshotWritten)) ==
            if p.baseIndex == 0 && q.baseIndex > 0 then None else Some(p.(snapshot := q.snapshot))
  {
    hide Contiguous, ParseLog, LogText;
    LogRoundTrip(c, HeaderFor(p), p.log);
  }

  /** A log is valid under an earlier term exactly when its last term does not exceed it. */
  lemma UnderEarlierTerm(q: Persisted, p: Persisted)
    requires L.ValidPersisted(q) && p.currentTerm <= q.currentTerm
    ensures Contiguous(q.baseIndex, q.baseTerm, q.log, p.currentTerm) && q.baseTerm <= p.currentTerm
            <==> LastTermOf(q) <= p.currentTerm
  {
  }

  lemma LogWithOldMeta(c: Codec, d: Disk, p: Persisted, q: Persisted)
    requires Sane(c) && Stored(c, d, p) && Succeeds(p, q)
    ensures Recover(c, Saving(c, d, q, LogWritten)) ==
            if LastTermOf(q) > p.currentTerm then None else Some(Interrupted(p, q, LogWritten))
  {
    hide Contiguous, ParseLog, LogText, Sane;
    var a := Saving(c, d, q, LogWritten);
    LogRoundTrip(c, HeaderFor(q), q.log);
    UnderEarlierTerm(q, p);
    SavedSnapshot(c, d, p, q, LogWritten);
    var m := ReadMeta(c, d).value;
    assert Max(m.commitIndex, q.baseIndex) == Max(p.commitIndex, q.baseIndex);
    assert Assemble(m, Parsed(Some(HeaderFor(q)), q.log), q.snapshot) == Interrupted(p, q, LogWritten);
    if d.meta.None? && (q.baseIndex > 0 || q.log != []) {
      PositiveTerms(q);
    }
  }

  lemma PositiveTerms(q: Persisted)
    requires L.ValidPersisted(q) && (q.baseIndex > 0 || q.log != [])
    ensures LastTermOf(q) > 0
  {
  }

  /**
   * Hard state only moves forward, and every index up to the old commit index is under the
   * snapshot or holds the old entry.
   */
  ghost predicate Covers(r: Persisted, p: Persisted) {
    && r.commitIndex >= p.commitIndex && r.baseIndex >= p.baseIndex && r.currentTerm >= p.currentTerm
    && (r.currentTerm == p.currentTerm && p.votedFor.Some? ==> r.votedFor == p.votedFor)
    && (forall i {:trigger Live(r, i)} :: r.baseIndex < i <= p.commitIndex ==>
          Live(r, i).Some? && Live(r, i) == Live(p, i))
  }

  /**
   * Crash safety of a save: for every stored state, every successor and every
   * point of interruption, opening refuses exactly in the two named cases;
   * otherwise it returns the old or the new (term, vote), the old or the new log
   * with its base, a commit index no lower than before, and every committed entry.
   */
  lemma CrashSafe(c: Codec, d: Disk, p: Persisted, q: Persisted, stage: Stage)
    requires Sane(c) && Stored(c, d, p) && Succeeds(p, q)
    ensures var r := Interrupted(p, q, stage);
            && Recover(c, Saving(c, d, q, stage)) == (if Refuses(p, q, stage) then None else Some(r))
            && ((r.currentTerm, r.votedFor) == (p.currentTerm, p.votedFor)
                || (r.currentTerm, r.votedFor) == (q.currentTerm, q.votedFor))
            && ((r.baseIndex, r.baseTerm, r.log) == (p.baseIndex, p.baseTerm, p.log)
                || (r.baseIndex, r.baseTerm, r.log) == (q.baseIndex, q.baseTerm, q.log))
            && Covers(r, p)
  {
    hide Sane, Recover, Saving, Stored;
    match stage {
      case Nothing => StoredRecovers(c, d, p); NothingSaved(c, d, q);
      case SnapshotWritten => SnapshotOnly(c, d, p, q);
      case LogWritten => LogWithOldMeta(c, d, p, q);
      case AllWritten => SaveCompletes(c, d, p, q);
    }
    CommittedCovered(p, q, stage);
  }

  lemma NothingSaved(c: Codec, d: Disk, q: Persisted)
    ensures Saving(c, d, q, Nothing) == d
  {
  }

  lemma CommittedCovered(p: Persisted, q: Persisted, stage: Stage)
    requires Succeeds(p, q)
    ensures Covers(Interrupted(p, q, stage), p)
  {
    var r := Interrupted(p, q, stage);
    forall i {:trigger Live(r, i)} | r.baseIndex < i <= p.commitIndex
      ensures Live(r, i).Some? && Live(r, i) == Live(p, i)
    {
      assert Live(q, i) == Live(p, i) || r.log == p.log;
      if r.log == q.log && r.baseIndex == q.baseIndex {
        assert Live(r, i) == Live(q, i);
      } else {
        assert Live(r, i) == Live(p, i);
      }
    }
  }

  /** What survives a crash is stored again once opened, so the next save starts from the same guarantee. */
  lemma ReopenedStored(c: Codec, d: Disk, p: Persisted, q: Persisted, stage: Stage)
    requires Sane(c) && Stored(c, d, p) && Succeeds(p, q) && !Refuses(p, q, stage)
    ensures var r := Interrupted(p, q, stage);
            Stored(c, Saving(c, d, q, stage).(log := Some(LogText(c, HeaderFor(r), r.log))), r)
  {
    hide Sane, Recover, Saving, Stored;
    CrashSafe(c, d, p, q, stage);
    RecoveredStored(c, Saving(c, d, q, stage), Interrupted(p, q, stage));
  }

  // ---- many crashes -----------------------------------------------------

  /** One life of a member: the save it was making when it ended, and how far that got. */
  datatype Life = Life(next: Persisted, reached: Stage)

  /** What is recovered after all of `lives`. */
  function Survivor(p: Persisted, lives: seq<Life>): Persisted {
    if lives == [] then p
    else
      var last := lives[|lives| - 1];
      Interrupted(Survivor(p, lives[..|lives| - 1]), last.next, last.reached)
  }

  /** The files after all of `lives`, each begun by opening what the one before left. */
  function Reopened(c: Codec, d: Disk, p: Persisted, lives: seq<Life>): Disk {
    if lives == [] then d
    else
      var last := lives[|lives| - 1];
      var r := Survivor(p, lives);
      Saving(c, Reopened(c, d, p, lives[..|lives| - 1]), last.next,
             last.reached).(log := Some(LogText(c, HeaderFor(r), r.log)))
  }

  /** Each life saves successors of what it recovered, and none ends where opening refuses. */
  ghost predicate Booted(p: Persisted, lives: seq<Life>) {
    forall i :: 0 <= i < |lives| ==>
      && Succeeds(Survivor(p, lives[..i]), lives[i].next)
      && !Refuses(Survivor(p, lives[..i]), lives[i].next, lives[i].reached)
  }

  lemma CoversTransitive(p: Persisted, q: Persisted, r: Persisted)
    requires Covers(q, p) && Covers(r, q)
    ensures Covers(r, p)
  {
    forall i {:trigger Live(r, i)} | r.baseIndex < i <= p.commitIndex
      ensures Live(r, i).Some? && Live(r, i) == Live(p, i)
    {
      assert Live(r, i) == Live(q, i) && Live(q, i) == Live(p, i);
    }
  }

  lemma CoversItself(p: Persisted)
    requires L.ValidPersisted(p)
    ensures Covers(p, p)
  {
  }

  /**
   * Over any number of crashes, each at any point of a save: the files always hold
   * exactly the survivor, which is valid, keeps every entry ever durably committed
   * and never takes back a term or a vote.
   */
  lemma {:induction false} NeverLost(c: Codec, d: Disk, p: Persisted, lives: seq<Life>)
    requires Sane(c) && Stored(c, d, p) && Booted(p, lives)
    ensures Stored(c, Reopened(c, d, p, lives), Survivor(p, lives))
    ensures Recover(c, Reopened(c, d, p, lives)) == Some(Survivor(p, lives))
    ensures Covers(Survivor(p, lives), p)
    decreases |lives|
  {
    hide Sane, Stored, Covers, Recover, Saving, Interrupted, Refuses, LogText, Succeeds;
    if lives == [] {
      StoredValid(c, d, p);
      CoversItself(p);
    } else {
      var k := |lives| - 1;
      var was := lives[..k];
      assert forall i :: 0 <= i < k ==> was[i] == lives[i] && was[..i] == lives[..i];
      NeverLost(c, d, p, was);
      CrashSafe(c, Reopened(c, d, p, was), Survivor(p, was), lives[k].next, lives[k].reached);
      ReopenedStored(c, Reopened(c, d, p, was), Survivor(p, was), lives[k].next, lives[k].reached);
      CoversTransitive(p, Survivor(p, was), Survivor(p, lives));
    }
    StoredRecovers(c, Reopened(c, d, p, lives), Survivor(p, lives));
  }

  lemma StoredValid(c: Codec, d: Disk, p: Persisted)
    requires Stored(c, d, p)
    ensures L.ValidPersisted(p)
  {
  }
}
