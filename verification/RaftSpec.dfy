/**
 * What each operation of the Raft engine does to a member's state, as total
 * functions on a record of its fields. `RaftEngine` is the imperative engine and
 * is proved to compute exactly these; `RaftLocal` and `RaftCluster` prove what
 * they guarantee.
 */
module RaftSpec {
  import opened Model

  datatype Role = Follower | PreCandidate | Candidate | Leader

  datatype Config = Config(heartbeatTicks: nat, electionMinTicks: nat, electionMaxTicks: nat)

  datatype Message =
    | RequestVote(term: nat, candidateId: NodeId, lastLogIndex: nat, lastLogTerm: nat, preVote: bool)
    | RequestVoteResp(term: nat, granted: bool, preVote: bool)
    | AppendEntries(term: nat, leaderId: NodeId, prevLogIndex: nat, prevLogTerm: nat,
                    entries: seq<Entry>, leaderCommit: nat)
    | AppendEntriesResp(term: nat, success: bool, matchIndex: nat)
    | InstallSnapshot(term: nat, leaderId: NodeId, lastIncludedIndex: nat, lastIncludedTerm: nat,
                      data: Replicated)
    | InstallSnapshotResp(term: nat, success: bool, lastIncludedIndex: nat)

  datatype Addressed = Addressed(to: NodeId, msg: Message)

  /** The durable part of a member's state. */
  datatype Persisted = Persisted(
    currentTerm: nat,
    votedFor: Option<NodeId>,
    commitIndex: nat,
    log: seq<Entry>,
    baseIndex: nat,
    baseTerm: nat,
    snapshot: Option<Replicated>)

  /** What a member that has never saved anything starts from. */
  const FRESH := Persisted(0, None, 0, [], 0, 0, None)

  /**
   * One member. `draws` is the stream its random generator produces and `drawn`
   * how much of it has been used.
   */
  datatype State = State(
    id: NodeId,
    peers: seq<NodeId>,
    cfg: Config,
    currentTerm: nat,
    votedFor: Option<NodeId>,
    log: seq<Entry>,
    baseIndex: nat,
    baseTerm: nat,
    snapshot: Option<Replicated>,
    role: Role,
    commitIndex: nat,
    lastApplied: nat,
    leaderId: Option<NodeId>,
    pendingRestore: bool,
    votes: set<NodeId>,
    ackedSinceCheck: set<NodeId>,
    nextIndex: map<NodeId, nat>,
    matchIndex: map<NodeId, nat>,
    snapshotInflight: map<NodeId, nat>,
    electionElapsed: nat,
    heartbeatElapsed: nat,
    electionTimeout: nat,
    draws: nat -> nat,
    drawn: nat,
    out: seq<Addressed>,
    dirty: bool)

  datatype Ready = Ready(
    persist: Option<Persisted>,
    restore: Option<Replicated>,
    appliedFrom: nat,
    appliedUpto: nat,
    messages: seq<Addressed>,
    committed: seq<(nat, Command)>)

  function Max(a: nat, b: nat): nat { if a < b then b else a }

  function Min(a: nat, b: nat): nat { if a < b then a else b }

  /** Unsigned subtraction stopping at zero. */
  function Minus(a: nat, b: nat): nat { if a < b then 0 else a - b }

  function Get(m: map<NodeId, nat>, k: NodeId, default: nat): nat {
    if k in m then m[k] else default
  }

  // ---- views ------------------------------------------------------------

  function Durable(s: State): Persisted {
    Persisted(s.currentTerm, s.votedFor, s.commitIndex, s.log, s.baseIndex, s.baseTerm, s.snapshot)
  }

  function Quorum(s: State): nat { (|s.peers| + 1) / 2 + 1 }

  function LastIndex(s: State): nat { s.baseIndex + |s.log| }

  function LastTerm(s: State): nat {
    if s.log == [] then s.baseTerm else s.log[|s.log| - 1].term
  }

  /** Position in `log` of a live index, if it is live. */
  function Slot(s: State, index: nat): (r: Option<nat>)
    ensures r.Some? <==> s.baseIndex < index <= LastIndex(s)
    ensures r.Some? ==> r.value < |s.log| && r.value == index - s.baseIndex - 1
  {
    if index <= s.baseIndex || index > LastIndex(s) then None else Some(index - s.baseIndex - 1)
  }

  function TermAt(s: State, index: nat): nat {
    if index == s.baseIndex then s.baseTerm
    else match Slot(s, index)
         case Some(k) => s.log[k].term
         case None => 0
  }

  function New(id: NodeId, peers: seq<NodeId>, cfg: Config, draws: nat -> nat, p: Persisted): State {
    ResetTimer(State(id, peers, cfg, p.currentTerm, p.votedFor, p.log, p.baseIndex, p.baseTerm, p.snapshot,
                     Follower, p.commitIndex, p.baseIndex, None, false, {}, {}, map[], map[], map[],
                     0, 0, 0, draws, 0, [], false))
  }

  // ---- timers and sending -----------------------------------------------

  function Timeout(cfg: Config, draw: nat): (r: nat)
    ensures 1 <= Max(cfg.electionMinTicks, 1) <= r <= Max(cfg.electionMaxTicks, Max(cfg.electionMinTicks, 1))
  {
    var lo := Max(cfg.electionMinTicks, 1);
    var hi := Max(cfg.electionMaxTicks, lo);
    lo + draw % (hi - lo + 1)
  }

  function ResetTimer(s: State): State {
    s.(electionElapsed := 0, electionTimeout := Timeout(s.cfg, s.draws(s.drawn)), drawn := s.drawn + 1)
  }

  function Send(s: State, to: NodeId, msg: Message): State {
    s.(out := s.out + [Addressed(to, msg)])
  }

  /** The same message to each of `ps`, in order. */
  function SendAll(s: State, ps: seq<NodeId>, msg: Message): (r: State)
    ensures r == s.(out := r.out)
  {
    if ps == [] then s else Send(SendAll(s, ps[..|ps| - 1], msg), ps[|ps| - 1], msg)
  }

  function SendSnapshot(s: State, peer: NodeId): (r: State)
    ensures r == s.(out := r.out, snapshotInflight := r.snapshotInflight)
  {
    match s.snapshot
    case None => s
    case Some(data) =>
      Send(s.(snapshotInflight := s.snapshotInflight[peer := s.baseIndex]), peer,
           InstallSnapshot(s.currentTerm, s.id, s.baseIndex, s.baseTerm, data))
  }

  /** The live entries from `next` on. */
  function EntriesFrom(s: State, next: nat): seq<Entry> {
    match Slot(s, next)
    case Some(k) => s.log[k..]
    case None => []
  }

  function SendAppend(s: State, peer: NodeId): (r: State)
    ensures r == s.(out := r.out, snapshotInflight := r.snapshotInflight)
  {
    var next := Get(s.nextIndex, peer, LastIndex(s) + 1);
    if next <= s.baseIndex then SendSnapshot(s, peer)
    else
      Send(s, peer, AppendEntries(s.currentTerm, s.id, next - 1, TermAt(s, next - 1), EntriesFrom(s, next),
                                  s.commitIndex))
  }

  function SendAppends(s: State, ps: seq<NodeId>): (r: State)
    ensures r == s.(out := r.out, snapshotInflight := r.snapshotInflight)
  {
    if ps == [] then s else SendAppend(SendAppends(s, ps[..|ps| - 1]), ps[|ps| - 1])
  }

  function BroadcastAppend(s: State): State { SendAppends(s, s.peers) }

  // ---- elections --------------------------------------------------------

  function BecomeFollower(s: State, term: nat, leader: Option<NodeId>): State {
    var a := if term > s.currentTerm then s.(currentTerm := term, votedFor := None, dirty := true) else s;
    ResetTimer(a.(role := Follower, leaderId := leader, votes := {}, snapshotInflight := map[]))
  }

  /** A later term makes anyone a follower of nobody yet. */
  function Adopt(s: State, term: nat): State {
    if term > s.currentTerm then BecomeFollower(s, term, None) else s
  }

  /** The bookkeeping a fresh leader starts from: every peer at `next`, nothing matched. */
  function AllAt(ps: seq<NodeId>, v: nat): (r: map<NodeId, nat>)
    ensures forall p :: p in r <==> p in ps
    ensures forall p :: p in r ==> r[p] == v
  {
    if ps == [] then map[]
    else
      assert ps == ps[..|ps| - 1] + [ps[|ps| - 1]];
      AllAt(ps[..|ps| - 1], v)[ps[|ps| - 1] := v]
  }

  /** A new leader's state before its first broadcast: fresh bookkeeping and one entry of its own term. */
  function TakeOffice(s: State): State {
    var noop := Entry(s.currentTerm, LastIndex(s) + 1, None);
    s.(role := Leader, leaderId := Some(s.id),
       nextIndex := AllAt(s.peers, LastIndex(s) + 1), matchIndex := AllAt(s.peers, 0),
       snapshotInflight := map[], log := s.log + [noop], dirty := true,
       heartbeatElapsed := 0, ackedSinceCheck := {})
  }

  function BecomeLeader(s: State): State {
    BroadcastAppend(ResetTimer(TakeOffice(s)))
  }

  function MaybeWinElection(s: State): State {
    if s.role == Candidate && |s.votes| >= Quorum(s) then BecomeLeader(s) else s
  }

  /** The state of a member that has just opened an election, before any reply. */
  function Campaigning(s: State): State {
    ResetTimer(s.(currentTerm := s.currentTerm + 1, votedFor := Some(s.id), dirty := true,
                  role := Candidate, leaderId := None, votes := {s.id}))
  }

  function StartElection(s: State): State {
    var a := Campaigning(s);
    MaybeWinElection(SendAll(a, a.peers,
      RequestVote(a.currentTerm, a.id, LastIndex(a), LastTerm(a), false)))
  }

  function MaybeWinPreElection(s: State): State {
    if s.role == PreCandidate && |s.votes| >= Quorum(s) then StartElection(s) else s
  }

  function StartPreElection(s: State): State {
    var a := ResetTimer(s).(role := PreCandidate, votes := {s.id});
    MaybeWinPreElection(SendAll(a, a.peers,
      RequestVote(a.currentTerm + 1, a.id, LastIndex(a), LastTerm(a), true)))
  }

  /** The check-quorum half of a leader's tick. */
  function CheckQuorum(s: State): State {
    var a := s.(electionElapsed := s.electionElapsed + 1);
    if a.electionElapsed < a.electionTimeout then a
    else
      var b := a.(ackedSinceCheck := {});
      if |a.ackedSinceCheck| + 1 < Quorum(a) then BecomeFollower(b, b.currentTerm, None) else ResetTimer(b)
  }

  function Heartbeat(s: State): State {
    var a := s.(heartbeatElapsed := s.heartbeatElapsed + 1);
    if a.heartbeatElapsed >= a.cfg.heartbeatTicks then BroadcastAppend(a.(heartbeatElapsed := 0)) else a
  }

  /** The tick of a member that is not leader: campaign once the leader has been silent too long. */
  function WaitForLeader(s: State): State {
    var a := s.(electionElapsed := s.electionElapsed + 1);
    if a.electionElapsed >= a.electionTimeout then StartPreElection(a) else a
  }

  function Tick(s: State): State {
    if s.role == Leader then CheckQuorum(Heartbeat(s)) else WaitForLeader(s)
  }

  // ---- votes ------------------------------------------------------------

  predicate LogOk(s: State, lastLogIndex: nat, lastLogTerm: nat) {
    lastLogTerm > LastTerm(s) || (lastLogTerm == LastTerm(s) && lastLogIndex >= LastIndex(s))
  }

  /** The decision on a vote request once its term is taken in. */
  function AnswerVote(a: State, from: NodeId, req: Message): State
    requires req.RequestVote?
  {
    var logOk := LogOk(a, req.lastLogIndex, req.lastLogTerm);
    if req.term < a.currentTerm then Send(a, from, RequestVoteResp(a.currentTerm, false, req.preVote))
    else if req.preVote then
      var noTrustedLeader := a.leaderId.None? || a.electionElapsed >= a.cfg.electionMinTicks;
      Send(a, from, RequestVoteResp(a.currentTerm, logOk && noTrustedLeader, true))
    else if (a.votedFor.None? || a.votedFor == Some(from)) && logOk && req.term == a.currentTerm then
      var b := ResetTimer(a.(votedFor := Some(from), dirty := true));
      Send(b, from, RequestVoteResp(b.currentTerm, true, false))
    else Send(a, from, RequestVoteResp(a.currentTerm, false, false))
  }

  function HandleRequestVote(s: State, from: NodeId, req: Message): State
    requires req.RequestVote?
  {
    if req.term == 0 then Send(s, from, RequestVoteResp(s.currentTerm, false, req.preVote))
    else
      AnswerVote(if req.preVote then s else Adopt(s, req.term), from, req)
  }

  function HandleVoteResp(s: State, from: NodeId, resp: Message): State
    requires resp.RequestVoteResp?
  {
    if resp.term > s.currentTerm then BecomeFollower(s, resp.term, None)
    else if !resp.granted then s
    else if resp.preVote then
      if s.role == PreCandidate then MaybeWinPreElection(s.(votes := s.votes + {from})) else s
    else if s.role == Candidate && resp.term == s.currentTerm then
      MaybeWinElection(s.(votes := s.votes + {from}))
    else s
  }

  // ---- appending --------------------------------------------------------

  /** `entries` continue `(prevIndex, prevTerm)` without gap, with terms in 1..bound that never descend. */
  predicate Contiguous(prevIndex: nat, prevTerm: nat, entries: seq<Entry>, bound: nat) {
    && (forall k :: 0 <= k < |entries| ==>
          entries[k].index == prevIndex + 1 + k && 0 < entries[k].term <= bound && prevTerm <= entries[k].term)
    && (forall j, k :: 0 <= j <= k < |entries| ==> entries[j].term <= entries[k].term)
  }

  /** The well-formedness test on an append request. */
  predicate EntriesAreContiguous(req: Message)
    requires req.AppendEntries?
  {
    && req.term > 0 && (req.prevLogIndex == 0 <==> req.prevLogTerm == 0)
    && Contiguous(req.prevLogIndex, req.prevLogTerm, req.entries, req.term)
  }

  /** Whether dropping everything from `index` on is allowed, and the state after it. */
  function TruncateFrom(s: State, index: nat): (bool, State) {
    if index <= s.commitIndex then (false, s)
    else match Slot(s, index)
         case Some(k) => (true, s.(log := s.log[..k], dirty := true))
         case None => (true, s)
  }

  datatype Spliced = Spliced(state: State, confirmed: nat, ok: bool)

  /** Merge `entries` into the log, overwriting conflicts, up to the first refused truncation. */
  function Splice(s: State, entries: seq<Entry>, confirmed: nat): Spliced
    decreases |entries|
  {
    if entries == [] then Spliced(s, confirmed, true)
    else
      var e := entries[0];
      if e.index <= LastIndex(s) then
        if TermAt(s, e.index) == e.term then Splice(s, entries[1..], e.index)
        else
          var (ok, t) := TruncateFrom(s, e.index);
          if !ok then Spliced(s, confirmed, false)
          else Splice(t.(log := t.log + [e], dirty := true), entries[1..], e.index)
      else Splice(s.(log := s.log + [e], dirty := true), entries[1..], e.index)
  }

  /** Follow the leader's commit index as far as this request vouches for the log. */
  function FollowCommit(s: State, commit: nat): State {
    if commit > s.commitIndex then s.(commitIndex := commit, dirty := true) else s
  }

  /** The part of an append that runs once term and shape are accepted. */
  function AcceptAppend(s: State, from: NodeId, req: Message): State
    requires req.AppendEntries?
  {
    if req.prevLogIndex > LastIndex(s) then
      Send(s, from, AppendEntriesResp(s.currentTerm, false, LastIndex(s)))
    else if req.prevLogIndex > 0 && TermAt(s, req.prevLogIndex) != req.prevLogTerm then
      Send(s, from, AppendEntriesResp(s.currentTerm, false, Minus(req.prevLogIndex, 1)))
    else
      var sp := Splice(s, req.entries, req.prevLogIndex);
      var a := if sp.ok then FollowCommit(sp.state, Min(req.leaderCommit, sp.confirmed)) else sp.state;
      Send(a, from, AppendEntriesResp(a.currentTerm, sp.ok, sp.confirmed))
  }

  function HandleAppend(s: State, from: NodeId, req: Message): State
    requires req.AppendEntries?
  {
    if req.term < s.currentTerm then Send(s, from, AppendEntriesResp(s.currentTerm, false, 0))
    else
      var a := Adopt(s, req.term);
      if !EntriesAreContiguous(req) then
        Send(a, from, AppendEntriesResp(a.currentTerm, false, LastIndex(a)))
      else AcceptAppend(BecomeFollower(a, req.term, Some(from)), from, req)
  }

  // ---- replies to a leader ----------------------------------------------

  /** How many of `ps` are known to hold the log up to `n`. */
  function Matching(ps: seq<NodeId>, matched: map<NodeId, nat>, n: nat): nat {
    if ps == [] then 0
    else Matching(ps[..|ps| - 1], matched, n) + (if Get(matched, ps[|ps| - 1], 0) >= n then 1 else 0)
  }

  /** `n` holds an entry of the current term that a quorum is known to hold. */
  predicate Committable(s: State, n: nat) {
    TermAt(s, n) == s.currentTerm && 1 + Matching(s.peers, s.matchIndex, n) >= Quorum(s)
  }

  /** The highest committable index in `commitIndex+1..n`, or `commitIndex` if there is none. */
  function HighestCommittable(s: State, n: nat): (r: nat)
    ensures r == s.commitIndex || (s.commitIndex < r <= n && Committable(s, r))
    ensures forall m :: r < m <= n && s.commitIndex < m ==> !Committable(s, m)
  {
    if n <= s.commitIndex then s.commitIndex
    else if Committable(s, n) then n
    else HighestCommittable(s, n - 1)
  }

  function MaybeAdvanceCommit(s: State): State {
    FollowCommit(s, HighestCommittable(s, LastIndex(s)))
  }

  /** Record that `from` holds the log up to at least `acknowledged`. */
  function RecordMatch(s: State, from: NodeId, acknowledged: nat): State {
    var matched := Max(acknowledged, Get(s.matchIndex, from, 0));
    var a := s.(matchIndex := s.matchIndex[from := matched], nextIndex := s.nextIndex[from := matched + 1]);
    var b := MaybeAdvanceCommit(a);
    if b.commitIndex > a.commitIndex then BroadcastAppend(b) else b
  }

  /** Where to retry after a failure that hints at `hint`, or nothing to retry. */
  function Rewind(s: State, from: NodeId, hint: nat): State {
    var previous := Get(s.nextIndex, from, 1);
    var next := Min(hint + 1, Max(Minus(previous, 1), 1));
    var a := s.(nextIndex := s.nextIndex[from := Min(next, previous)]);
    if next < previous then SendAppend(a, from) else a
  }

  function HandleAppendResp(s: State, from: NodeId, resp: Message): State
    requires resp.AppendEntriesResp?
  {
    if resp.term > s.currentTerm then BecomeFollower(s, resp.term, None)
    else if s.role != Leader || resp.term != s.currentTerm then s
    else
      var a := s.(ackedSinceCheck := s.ackedSinceCheck + {from});
      if resp.success then RecordMatch(a, from, Min(resp.matchIndex, LastIndex(a)))
      else Rewind(a, from, resp.matchIndex)
  }

  // ---- snapshots --------------------------------------------------------

  predicate SnapshotMetadataIsValid(req: Message)
    requires req.InstallSnapshot?
  {
    req.term > 0 && req.lastIncludedIndex > 0 && 0 < req.lastIncludedTerm <= req.term
  }

  /** Jump to the snapshot, keeping a log suffix that agrees with its boundary. */
  function Install(s: State, req: Message): State
    requires req.InstallSnapshot? && req.lastIncludedIndex > s.baseIndex
  {
    var i := req.lastIncludedIndex;
    var kept := if TermAt(s, i) == req.lastIncludedTerm && i <= LastIndex(s) then s.log[i - s.baseIndex..] else [];
    s.(log := kept, baseIndex := i, baseTerm := req.lastIncludedTerm, snapshot := Some(req.data),
       commitIndex := Max(s.commitIndex, i), lastApplied := i, pendingRestore := true, dirty := true)
  }

  /** The part of an install that runs once term and metadata are accepted. */
  function AcceptSnapshot(s: State, from: NodeId, req: Message): State
    requires req.InstallSnapshot?
  {
    if req.lastIncludedIndex <= s.baseIndex || req.lastIncludedIndex <= s.commitIndex then
      Send(s, from, InstallSnapshotResp(s.currentTerm, true, req.lastIncludedIndex))
    else
      var a := Install(s, req);
      Send(a, from, InstallSnapshotResp(a.currentTerm, true, a.baseIndex))
  }

  function HandleInstallSnapshot(s: State, from: NodeId, req: Message): State
    requires req.InstallSnapshot?
  {
    if req.term < s.currentTerm then Send(s, from, InstallSnapshotResp(s.currentTerm, false, 0))
    else
      var a := Adopt(s, req.term);
      if !SnapshotMetadataIsValid(req) then Send(a, from, InstallSnapshotResp(a.currentTerm, false, 0))
      else
        AcceptSnapshot(BecomeFollower(a, req.term, Some(from)), from, req)
  }

  function HandleInstallSnapshotResp(s: State, from: NodeId, resp: Message): State
    requires resp.InstallSnapshotResp?
  {
    if resp.term > s.currentTerm then BecomeFollower(s, resp.term, None)
    else if s.role != Leader || resp.term != s.currentTerm then s
    else
      var a := s.(ackedSinceCheck := s.ackedSinceCheck + {from});
      if !resp.success then a
      else
        var sent := Get(a.snapshotInflight, from, 0);
        RecordMatch(a.(snapshotInflight := a.snapshotInflight - {from}), from, Min(resp.lastIncludedIndex, sent))
  }

  // ---- the public operations --------------------------------------------

  /** Only a configured member, speaking for itself, may drive the engine. */
  predicate Admissible(s: State, from: NodeId, msg: Message) {
    && from in s.peers
    && (msg.RequestVote? ==> msg.candidateId == from)
    && (msg.AppendEntries? ==> msg.leaderId == from)
    && (msg.InstallSnapshot? ==> msg.leaderId == from)
  }

  function Step(s: State, from: NodeId, msg: Message): State {
    if !Admissible(s, from, msg) then s
    else match msg
      case RequestVote(_, _, _, _, _) => HandleRequestVote(s, from, msg)
      case RequestVoteResp(_, _, _) => HandleVoteResp(s, from, msg)
      case AppendEntries(_, _, _, _, _, _) => HandleAppend(s, from, msg)
      case AppendEntriesResp(_, _, _) => HandleAppendResp(s, from, msg)
      case InstallSnapshot(_, _, _, _, _) => HandleInstallSnapshot(s, from, msg)
      case InstallSnapshotResp(_, _, _) => HandleInstallSnapshotResp(s, from, msg)
  }

  /** A leader appends the command; anyone else is left unchanged. */
  function Propose(s: State, command: Command): State {
    if s.role != Leader then s
    else
      var e := Entry(s.currentTerm, LastIndex(s) + 1, Some(command));
      BroadcastAppend(MaybeAdvanceCommit(s.(log := s.log + [e], dirty := true)))
  }

  function Compact(s: State, index: nat, snapshot: Replicated): State {
    if index <= s.baseIndex || index > s.commitIndex then s
    else
      var keep := index - s.baseIndex;
      s.(log := if keep <= |s.log| then s.log[keep..] else [], baseIndex := index, baseTerm := TermAt(s, index),
         snapshot := Some(snapshot), dirty := true)
  }

  /** The commands at indexes `from+1..upto`, with their indexes. */
  function Batch(s: State, from: nat, upto: nat): seq<(nat, Command)>
    decreases upto
  {
    if upto <= from then []
    else Batch(s, from, upto - 1) +
         match Slot(s, upto)
         case Some(k) => (match s.log[k].command case Some(c) => [(upto, c)] case None => [])
         case None => []
  }

  /** The effects to carry out, and the state once they are handed over. */
  function TakeReady(s: State): (Ready, State) {
    (Ready(if s.dirty then Some(Durable(s)) else None,
           if s.pendingRestore then s.snapshot else None,
           s.lastApplied, Max(s.lastApplied, s.commitIndex), s.out,
           Batch(s, s.lastApplied, s.commitIndex)),
     s.(out := [], dirty := false, pendingRestore := false, lastApplied := Max(s.lastApplied, s.commitIndex)))
  }
}
