/**
 * The durable home of a member: a `meta` file, a `log` file of one record per
 * line, and a `snapshot` file. A save is three whole-file replacements in a fixed
 * order; opening parses, checks and canonicalises what is there.
 */
module RaftStore {
  import opened Model
  import opened RaftSpec
  import L = RaftLocal

  newtype Byte = x: int | 0 <= x < 256
  type Bytes = seq<Byte>

  const NL: Byte := 10

  datatype Meta = Meta(currentTerm: nat, votedFor: Option<NodeId>, commitIndex: nat, baseIndex: nat, baseTerm: nat)

  datatype Header = Header(version: nat, baseIndex: nat, baseTerm: nat)

  const LOG_FORMAT_VERSION: nat := 1

  /** How records become text and back. */
  datatype Codec = Codec(
    header: Header -> Bytes, readHeader: Bytes -> Option<Header>,
    entry: Entry -> Bytes, readEntry: Bytes -> Option<Entry>,
    meta: Meta -> Bytes, readMeta: Bytes -> Option<Meta>,
    snapshot: Replicated -> Bytes, readSnapshot: Bytes -> Option<Replicated>)

  predicate OneLine(b: Bytes) { b != [] && NL !in b }

  /**
   * What JSON objects on one line provide: a record reads back as itself, and no
   * proper prefix of one is a record of either kind.
   */
  ghost predicate Sane(c: Codec) {
    && (forall h :: OneLine(c.header(h)) && c.readHeader(c.header(h)) == Some(h))
    && (forall e :: OneLine(c.entry(e)) && c.readEntry(c.entry(e)) == Some(e))
    && (forall m :: c.meta(m) != [] && c.readMeta(c.meta(m)) == Some(m))
    && (forall r :: c.snapshot(r) != [] && c.readSnapshot(c.snapshot(r)) == Some(r))
    && (forall h, k {:trigger c.header(h)[..k]} :: 0 <= k < |c.header(h)| ==>
          c.readHeader(c.header(h)[..k]) == None && c.readEntry(c.header(h)[..k]) == None)
    && (forall e, k {:trigger c.entry(e)[..k]} :: 0 <= k < |c.entry(e)| ==> c.readEntry(c.entry(e)[..k]) == None)
  }

  // ---- the log file -----------------------------------------------------

  /** The pieces between newlines; a trailing newline leaves an empty last piece. */
  function Split(b: Bytes): (r: seq<Bytes>)
    ensures |r| >= 1
  {
    if b == [] then [[]]
    else if b[0] == NL then [[]] + Split(b[1..])
    else [[b[0]] + Split(b[1..])[0]] + Split(b[1..])[1..]
  }

  /** No unfinished last record. */
  predicate Clean(b: Bytes) { b == [] || b[|b| - 1] == NL }

  function Body(c: Codec, es: seq<Entry>): Bytes {
    if es == [] then [] else c.entry(es[0]) + [NL] + Body(c, es[1..])
  }

  /** What a log file holds: a header line, then one line for each entry. */
  function LogText(c: Codec, h: Header, es: seq<Entry>): Bytes {
    c.header(h) + [NL] + Body(c, es)
  }

  /** The entries on `lines`; only an unreadable last line of an unclean file is forgiven. */
  function ScanEntries(c: Codec, lines: seq<Bytes>, clean: bool): Option<seq<Entry>> {
    if lines == [] then Some([])
    else
      var last := |lines| == 1;
      if lines[0] == [] then (if last && clean then Some([]) else None)
      else match c.readEntry(lines[0])
        case Some(e) => Joined([e], ScanEntries(c, lines[1..], clean))
        case None => if last && !clean then Some([]) else None
  }

  datatype Parsed = Parsed(header: Option<Header>, log: seq<Entry>)

  function HeaderOf(c: Codec, b: Bytes): Option<Header> {
    if Split(b)[0] == [] then None else c.readHeader(Split(b)[0])
  }

  function ParseLog(c: Codec, b: Bytes): Option<Parsed> {
    var h := HeaderOf(c, b);
    match ScanEntries(c, if h.Some? then Split(b)[1..] else Split(b), Clean(b))
    case Some(es) => Some(Parsed(h, es))
    case None => None
  }

  method WriteLog(c: Codec, h: Header, log: seq<Entry>) returns (b: Bytes)
    ensures b == LogText(c, h, log)
  {
    b := c.header(h) + [NL];
    for i := 0 to |log|
      invariant b + Body(c, log[i..]) == LogText(c, h, log)
    {
      assert log[i..][0] == log[i] && log[i..][1..] == log[i + 1..];
      ghost var before := b;
      b := b + c.entry(log[i]);
      b := b + [NL];
      assert b + Body(c, log[i + 1..]) == before + (c.entry(log[i]) + [NL] + Body(c, log[i + 1..]));
    }
    assert log[|log|..] == [];
  }

  /** Line by line, as the store reads its log. */
  method ReadLog(c: Codec, b: Bytes) returns (r: Option<Parsed>)
    ensures r == ParseLog(c, b)
  {
    var terminated := b != [] && b[|b| - 1] == NL;
    var lines := Split(b);
    var header: Option<Header> := None;
    var log: seq<Entry> := [];
    var i := 0;
    ghost var h := HeaderOf(c, b);
    ghost var rest := if h.Some? then lines[1..] else lines;
    assert terminated || b == [] <==> Clean(b);
    EmptySplit(b);
    JoinedNothing([], ScanEntries(c, rest, Clean(b)));
    while i < |lines|
      invariant i <= |lines| && header == (if i == 0 then None else h)
      invariant i == 0 ==> log == []
      invariant ScanEntries(c, rest, Clean(b)) ==
                Joined(log, ScanEntries(c, if i == 0 then rest else lines[i..], Clean(b)))
    {
      var line := lines[i];
      var isLast := i + 1 == |lines|;
      assert lines[i..][0] == line && lines[i..][1..] == lines[i + 1..] && lines[0..] == lines;
      JoinedNothing(log, None);
      if line == [] {
        if isLast && (terminated || b == []) {
          i := i + 1;
          continue;
        }
        return None;
      }
      if i == 0 {
        header := c.readHeader(line);
        if header.Some? {
          i := i + 1;
          continue;
        }
      }
      match c.readEntry(line) {
        case Some(entry) =>
          JoinedNext(log, entry, ScanEntries(c, lines[i + 1..], Clean(b)));
          log := log + [entry];
        case None =>
          if isLast && !terminated {
            break;
          }
          return None;
      }
      i := i + 1;
    }
    JoinedNothing(log, None);
    r := Some(Parsed(header, log));
  }

  function Joined(es: seq<Entry>, more: Option<seq<Entry>>): Option<seq<Entry>> {
    match more
    case None => None
    case Some(fs) => Some(es + fs)
  }

  lemma JoinedNothing(es: seq<Entry>, more: Option<seq<Entry>>)
    ensures Joined([], more) == more
    ensures Joined(es, Some([])) == Some(es)
  {
    assert es + [] == es;
    if more.Some? { assert [] + more.value == more.value; }
  }

  lemma JoinedNext(es: seq<Entry>, e: Entry, more: Option<seq<Entry>>)
    ensures Joined(es, Joined([e], more)) == Joined(es + [e], more)
  {
    if more.Some? { assert es + ([e] + more.value) == es + [e] + more.value; }
  }

  lemma EmptySplit(b: Bytes)
    ensures b == [] ==> Split(b) == [[]]
  {
  }

  // ---- round trip and torn tails ----------------------------------------

  lemma {:induction false} SplitOne(line: Bytes)
    requires NL !in line
    ensures Split(line) == [line]
  {
    if line != [] {
      SplitOne(line[1..]);
      assert [line[0]] + line[1..] == line;
    }
  }

  lemma {:induction false} SplitLine(line: Bytes, rest: Bytes)
    requires NL !in line
    ensures Split(line + [NL] + rest) == [line] + Split(rest)
  {
    var all := line + [NL] + rest;
    if line == [] {
      assert all[1..] == rest;
    } else {
      assert all[1..] == line[1..] + [NL] + rest && all[0] == line[0];
      SplitLine(line[1..], rest);
      assert [line[0]] + line[1..] == line;
    }
  }

  /** How many records the first `k` bytes of a body hold in full, newline aside. */
  function Complete(c: Codec, es: seq<Entry>, k: nat): (m: nat)
    ensures m <= |es|
  {
    if es == [] || k < |c.entry(es[0])| then 0
    else 1 + Complete(c, es[1..], Minus(k, |c.entry(es[0])| + 1))
  }

  /** Reading any prefix of a body gives exactly the records that are there in full. */
  lemma {:induction false} TornBody(c: Codec, es: seq<Entry>, k: nat)
    requires Sane(c) && k <= |Body(c, es)|
    ensures var b := Body(c, es)[..k];
            ScanEntries(c, Split(b), Clean(b)) == Some(es[..Complete(c, es, k)])
    decreases |es|
  {
    var b := Body(c, es)[..k];
    if es == [] || k == 0 {
      assert b == [];
      if es != [] { assert OneLine(c.entry(es[0])); }
    } else {
      var text := c.entry(es[0]);
      assert OneLine(text) && c.readEntry(text) == Some(es[0]);
      if k <= |text| {
        assert b == text[..k];
        Fragment(text, k);
        if k == |text| {
          assert text[..k] == text;
          CompleteNone(c, es[1..]);
          assert es[..1] == [es[0]];
          ScanOne(c, text, es[0]);
        } else {
          assert c.readEntry(text[..k]) == None && es[..0] == [];
          assert ScanEntries(c, [text[..k]], false) == Some([]);
        }
      } else {
        var j := k - |text| - 1;
        var rest := Body(c, es[1..])[..j];
        assert b == text + [NL] + rest;
        SplitLine(text, rest);
        TornBody(c, es[1..], j);
        assert ([text] + Split(rest))[1..] == Split(rest);
        assert [es[0]] + es[1..][..Complete(c, es[1..], j)] == es[..Complete(c, es, k)];
      }
    }
  }

  lemma ScanOne(c: Codec, text: Bytes, e: Entry)
    requires text != [] && c.readEntry(text) == Some(e)
    ensures ScanEntries(c, [text], false) == Some([e])
  {
    assert [text][1..] == [];
    assert ScanEntries(c, [], false) == Some([]);
    assert [e] + [] == [e];
  }

  lemma Fragment(text: Bytes, k: nat)
    requires OneLine(text) && 0 < k <= |text|
    ensures text[..k] != [] && Split(text[..k]) == [text[..k]] && !Clean(text[..k])
  {
    SplitOne(text[..k]);
    assert text[k - 1] in text;
  }

  lemma CompleteNone(c: Codec, es: seq<Entry>)
    requires Sane(c)
    ensures Complete(c, es, 0) == 0
  {
    if es != [] { assert OneLine(c.entry(es[0])); }
  }

  lemma CompleteAll(c: Codec, es: seq<Entry>)
    ensures Complete(c, es, |Body(c, es)|) == |es|
  {
  }

  /** How many entries survive when only the first `k` bytes of a log file do. */
  function Surviving(c: Codec, h: Header, es: seq<Entry>, k: nat): (m: nat)
    ensures m <= |es|
  {
    Complete(c, es, Minus(k, |c.header(h)| + 1))
  }

  /** Torn tails: any prefix of a log file parses to its header, if whole, and a prefix of its entries. */
  lemma TornLog(c: Codec, h: Header, es: seq<Entry>, k: nat)
    requires Sane(c) && k <= |LogText(c, h, es)|
    ensures ParseLog(c, LogText(c, h, es)[..k]) ==
            Some(Parsed(if k < |c.header(h)| then None else Some(h), es[..Surviving(c, h, es, k)]))
  {
    var text := c.header(h);
    var b := LogText(c, h, es)[..k];
    assert OneLine(text) && c.readHeader(text) == Some(h);
    CompleteNone(c, es);
    if k <= |text| {
      assert b == text[..k];
      if k == 0 {
        assert b == [];
      } else {
        Fragment(text, k);
        if k == |text| {
          assert text[..k] == text;
        }
      }
    } else {
      var rest := Body(c, es)[..k - |text| - 1];
      assert b == text + [NL] + rest;
      SplitLine(text, rest);
      assert ([text] + Split(rest))[1..] == Split(rest);
      TornBody(c, es, k - |text| - 1);
    }
  }

  /** Round trip: a log file reads back as what was written. */
  lemma LogRoundTrip(c: Codec, h: Header, es: seq<Entry>)
    requires Sane(c)
    ensures ParseLog(c, LogText(c, h, es)) == Some(Parsed(Some(h), es))
  {
    var b := LogText(c, h, es);
    assert b[..|b|] == b;
    TornLog(c, h, es, |b|);
    CompleteAll(c, es);
    assert es[..|es|] == es;
  }

  // ---- validation -------------------------------------------------------

  /** The consistency test, entry by entry. */
  method ValidatePersisted(p: Persisted) returns (ok: bool)
    ensures ok <==> L.ValidPersisted(p)
  {
    if p.currentTerm == 0 && p.votedFor.Some? { return false; }
    if (p.baseIndex == 0) != (p.baseTerm == 0) { return false; }
    if (p.baseIndex > 0) != p.snapshot.Some? { return false; }
    if p.baseTerm > p.currentTerm { return false; }
    if p.commitIndex < p.baseIndex { return false; }
    var previousTerm := p.baseTerm;
    for i := 0 to |p.log|
      invariant Contiguous(p.baseIndex, p.baseTerm, p.log[..i], p.currentTerm)
      invariant previousTerm == if i == 0 then p.baseTerm else p.log[i - 1].term
    {
      var entry := p.log[i];
      if entry.index != p.baseIndex + 1 + i { return false; }
      if entry.term == 0 { return false; }
      if entry.term < previousTerm { return false; }
      if entry.term > p.currentTerm { return false; }
      previousTerm := entry.term;
    }
    assert p.log[..|p.log|] == p.log;
    var lastIndex := if p.log == [] then p.baseIndex else p.log[|p.log| - 1].index;
    return p.commitIndex <= lastIndex;
  }

  // ---- opening ----------------------------------------------------------

  datatype Disk = Disk(meta: Option<Bytes>, log: Option<Bytes>, snapshot: Option<Bytes>)

  const NO_META := Meta(0, None, 0, 0, 0)

  function ReadMeta(c: Codec, d: Disk): Option<Meta> {
    match d.meta
    case None => Some(NO_META)
    case Some(b) => if b == [] then None else c.readMeta(b)
  }

  /** The snapshot there is, if any; `None` if the file is empty or does not parse. */
  function ReadSnapshot(c: Codec, d: Disk): Option<Option<Replicated>> {
    match d.snapshot
    case None => Some(None)
    case Some(b) =>
      if b == [] then None
      else match c.readSnapshot(b)
        case Some(r) => Some(Some(r))
        case None => None
  }

  /** The state the files describe once they are parsed. */
  function Assemble(m: Meta, q: Parsed, snapshot: Option<Replicated>): Persisted {
    var (base, term) := match q.header case Some(h) => (h.baseIndex, h.baseTerm) case None => (m.baseIndex, m.baseTerm);
    Persisted(m.currentTerm, m.votedFor, Max(m.commitIndex, base), q.log, base, term, snapshot)
  }

  /** What opening recovers, or `None` if it refuses. */
  function Recover(c: Codec, d: Disk): Option<Persisted> {
    match (ReadMeta(c, d), ReadSnapshot(c, d), ParseLog(c, if d.log.Some? then d.log.value else []))
    case (Some(m), Some(snapshot), Some(q)) =>
      if q.header.Some? && q.header.value.version != LOG_FORMAT_VERSION then None
      else
        var p := Assemble(m, q, snapshot);
        if d.meta.None? && (p.baseIndex > 0 || p.log != [] || p.snapshot.Some?) then None
        else if L.ValidPersisted(p) then Some(p) else None
    case _ => None
  }

  function HeaderFor(p: Persisted): Header { Header(LOG_FORMAT_VERSION, p.baseIndex, p.baseTerm) }

  function MetaFor(p: Persisted): Meta { Meta(p.currentTerm, p.votedFor, p.commitIndex, p.baseIndex, p.baseTerm) }

  /** How far a save got before power was lost. */
  datatype Stage = Nothing | SnapshotWritten | LogWritten | AllWritten

  /** The files when a save of `p` onto `d` gets as far as `stage`. */
  function Saving(c: Codec, d: Disk, p: Persisted, stage: Stage): Disk {
    if stage == Nothing then d
    else
      var a := if p.snapshot.Some? then d.(snapshot := Some(c.snapshot(p.snapshot.value))) else d;
      if stage == SnapshotWritten then a
      else
        var b := a.(log := Some(LogText(c, HeaderFor(p), p.log)));
        if stage == LogWritten then b else b.(meta := Some(c.meta(MetaFor(p))))
  }

  /** The store, over the files of its directory. */
  class Store {
    const codec: Codec
    var disk: Disk

    constructor (codec: Codec, disk: Disk)
      ensures this.codec == codec && this.disk == disk
    {
      this.codec, this.disk := codec, disk;
    }

    /** Recover, and rewrite the log from what was recovered. */
    method Open() returns (r: Option<Persisted>)
      modifies this
      ensures r == Recover(codec, old(disk))
      ensures disk == if r.Some? then old(disk).(log := Some(LogText(codec, HeaderFor(r.value), r.value.log)))
              else old(disk)
    {
      var meta := NO_META;
      if disk.meta.Some? {
        if disk.meta.value == [] { return None; }
        var read := codec.readMeta(disk.meta.value);
        if read.None? { return None; }
        meta := read.value;
      }
      var snapshot: Option<Replicated> := None;
      if disk.snapshot.Some? {
        if disk.snapshot.value == [] { return None; }
        snapshot := codec.readSnapshot(disk.snapshot.value);
        if snapshot.None? { return None; }
      }
      var bytes := if disk.log.Some? then disk.log.value else [];
      var parsed := ReadLog(codec, bytes);
      if parsed.None? { return None; }
      if parsed.value.header.Some? && parsed.value.header.value.version != LOG_FORMAT_VERSION { return None; }
      var p := Assemble(meta, parsed.value, snapshot);
      if disk.meta.None? && (p.baseIndex > 0 || p.log != [] || p.snapshot.Some?) { return None; }
      var ok := ValidatePersisted(p);
      if !ok { return None; }
      var text := WriteLog(codec, HeaderFor(p), p.log);
      disk := disk.(log := Some(text));
      r := Some(p);
    }

    /** Save `p`; power may be lost once the writes of `reached` are done. */
    method Save(p: Persisted, reached: Stage) returns (ok: bool)
      modifies this
      ensures ok <==> L.ValidPersisted(p)
      ensures disk == if ok then Saving(codec, old(disk), p, reached) else old(disk)
    {
      ok := ValidatePersisted(p);
      if !ok || reached == Nothing { return; }
      if p.snapshot.Some? {
        disk := disk.(snapshot := Some(codec.snapshot(p.snapshot.value)));
      }
      if reached == SnapshotWritten { return; }
      var text := WriteLog(codec, HeaderFor(p), p.log);
      disk := disk.(log := Some(text));
      if reached == LogWritten { return; }
      disk := disk.(meta := Some(codec.meta(MetaFor(p))));
    }
  }
}
