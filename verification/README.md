# Fiducia brain: a verified model of the control plane

The brain is the control plane of a sharded store. It keeps the shard placement
map and the operator's scale plan in its own fixed-membership Raft group, keeps
that group's state in a small crash-ordered store, applies committed commands to
an in-memory state machine, and runs a reconcile loop that decides which nodes
hold and lead each shard. This project models those four parts in Dafny and proves
what they guarantee.

## How it is organised

**The Raft engine.** `RaftSpec` gives every engine operation as a total function
on a record of the member's fields; `RaftEngine` is the engine as an object that
updates its fields in place, each method proved to produce exactly the state
`RaftSpec` prescribes.

* `RaftLocal`, `RaftProgress`, `RaftRetries`, `RaftSilence`, `RaftHearing`,
  `RaftRefusals`: what a single member guarantees whatever messages it is sent.
* `RaftTrust`, `RaftMajority`, `RaftAnswers`: what each message gets for an answer, who
  gets a vote, when a majority decides, what goes out and what a drain is given, each
  exactly and in terms of the member's own fields.
* `Protocol`, `ProtocolSteps`: Raft as a history of terms, leaders, votes and
  acknowledgements, with the inductive invariant, and each protocol step
  preserving it. `RaftNode` says when a member's state and a message agree with
  such a history; `RaftSplice`, `RaftElections`, `RaftReplication`, `RaftAppends`
  and `RaftCommit` prove that every engine operation moves the history by such
  steps. A member's full log exists only in the history; its first `baseIndex`
  entries are what the snapshot stands for.
* `RaftCluster` is the group: any number of members, a set of packets that only
  grows (so packets may be lost, repeated and reordered), proposals, compactions,
  restarts, and deaths after a save whose effects were neither sent nor applied.
  `RaftSafety` holds the theorems over all its runs, `RaftDisruption` what protects a
  leader that a quorum hears, `RaftCatchUp` that replication gets there.
* `RaftOverlap` is the same group with drains that overtake each other and crashes
  at any moment. `RaftBallots` and `RaftOverlapSafety` prove what survives there,
  `RaftLoss` shows what does not. `RaftDelay` states the guard that is missing and
  proves that a run under it is a delayed run of `RaftCluster`; `RaftCourse` and
  `RaftFork` follow a member ahead of what it has saved; `RaftCareful` and
  `RaftPromise` hold the safety theorems under the guard, `RaftLone` the case of a
  group of one. `RaftScenes` and `RaftStall` build concrete runs.

**Durability and apply order.** `RaftStore` is the store over its three files,
`StoreRecovery` what can be found there after a crash. `RaftDriver` is the apply
section of concurrent drains and the wait for a commit, `RaftReplay` the replay laws
and when a drain may compact, `RaftDurability` when what a drain sends is on disk;
`RaftDelivery` connects runs of the group to the driver.

**The scheduler.** `PlanSpec`, `PlanProofs`, `PlanSpread` and `Planner` are the planner
for one shard; `Leadership` chooses leaders; `SchedulerSpec` is a reconcile tick and the
membership operations, `Scheduler` the same in place. `TickLaws`, `ReplicaCounts` and
`HeartbeatLaws` say what a tick, a sweep and a report do in terms of nodes, domains,
policies, silence and counts; `ReplicaFloor`, `LeaderBalance` and `ReplicaFlap` hold the
theorems over runs and over repeated ticks.

`Model` and `NodeOrder` are shared.

## Findings

* The splice loop calls a refused truncation impossible from a real leader
  (src/raft.rs:739-740). It is not: `RaftStall.StallReached` is a run of two members,
  under any timing and any compaction threshold, with one refusal delivered twice, after
  which the leader resumes at index 1 and sends entries the follower has already folded
  into its snapshot, which read as term 0. `RaftRefusals.AcceptedExactly` gives the
  exact test, `RefusedBelowBase` the exact condition for a truthful leader, and
  `StuckAtStart` shows that the exchange leaves the leader exactly where it was, at
  every heartbeat.
* A drain that has nothing to save does not wait for an earlier save
  (src/raft_driver.rs:374). A repeated append is acknowledged before it is durable
  (`RaftDurability.AckBeforeSave`), a heartbeat carries an entry its leader has not saved
  (`HeartbeatBeforeSave`), and one crash loses a command whose proposal has returned true
  (`RaftLoss.CommittedIsLost`). Election safety survives all of this
  (`RaftOverlapSafety.ElectionSafety`). Leader completeness, agreement on committed
  entries and the permanence of what was acknowledged need a guard: such a drain may send
  only if the disk, and a save under way, hold exactly what is durable, which is so
  whenever nothing waits or is being written (`RaftDelay.IdleIsSettled`). With the guard
  they hold over all overlapping runs (`RaftCareful`, `RaftPromise`).
  `RaftDurability.CoveredExactly` and `SettledIsCovered` say exactly what the guard asks.
* In a group of one even that is not enough for what is only read
  (`RaftLone.LoneCommitIsLost`); what is saved is permanent (`SavedIsPermanent`), and a
  proposal waits for its own save before it reads.
* A drain with an empty batch skips the wait for its predecessor and may compact
  too early (`RaftReplay.EmptyBatchOvertakes`); `CompactionRecovers` says exactly when
  compacting loses something, over every interleaving, and that only such a drain
  can; `TornSnapshotRecovers` that compacting late never does.
* The stale restore that src/raft_driver.rs:430-431 calls unreachable is reached
  when two restores race (`RaftDriver.StaleRestoreReached`); ignoring it is what keeps
  `RaftDriver.EveryInterleaving` true (`Overtaken`).
* A pre-vote reply names no round (src/raft.rs:662-680), so one that was granted before a
  quorum came to hear its leader still counts (`RaftDisruption.StalePreVoteCounts`), and
  may depose that leader. `NoDisruption`: nothing else can, over every run of the group.
* On a cold start the replica counts a tick works with go wrong: replicas adopted from the
  nodes' reports are taken off counts they were never part of
  (src/scheduler.rs:222-232). `ReplicaCounts.TurnLoads` says exactly when the counts stay
  true; a lone node that hosts every shard is counted with one
  (`LoneNodeUndercounted`).
* Between ticks a replica can move back and forth: `PlanProofs.SwapReverses` says
  exactly when a swap can be undone, and with one replica and two healthy nodes it moves
  at every tick for ever (`ReplicaFlap.ReplicaFlaps`).

## Model

| member | source | states |
|---|---|---|
| `RaftSafety.ElectionSafety` | src/raft.rs:483-680 | over a whole run with pre-votes, stale replies, step-downs and restarts, two members that lead the same term at any two moments are the same member |
| `RaftSafety.StateMachineSafety` | src/raft.rs:590-1097 | two members, at any two moments of a run, that have applied up to the same index hold the same placement and plan |
| `RaftSafety.AppliedCommandsAgree` | src/raft.rs:1063-1097 | no two events of a run apply different commands at the same log index |
| `RaftSafety.CommittedEntriesAgree` | src/raft.rs:975-1001 | an index committed and live at two members, at any two moments, holds the same entry |
| `RaftSafety.SnapshotsAgree` | src/raft.rs:1042-1057 | snapshots at the same base index are equal, with the same base term, whoever took or installed them |
| `RaftSafety.LogMatching` | src/raft.rs:716-762 | same term at an index, live or at the snapshot boundary, means the same live entries at every index up to it |
| `RaftSafety.LeaderCompleteness` | src/raft.rs:629-651 | an entry committed at any member is in the log, or under the base, of every leader of a later term and of every later leader of the same term |
| `RaftSafety.AcknowledgedIsPermanent` | src/raft_driver.rs:502-524 | once a proposal's index is seen committed in its own term, even after stepping down within it, every later leader and everyone committed that far holds exactly that command there |
| `RaftSafety.AlwaysSaved` | src/raft_driver.rs:374-401 | at every moment of a run each member's disk holds exactly its durable state, and that state is valid |
| `RaftCluster.NextAgrees` | src/raft_driver.rs:9-13 | every event of the group keeps it in agreement with a history satisfying the Raft invariant, and the history only grows |
| `RaftCluster.DiesAgrees` | src/raft_driver.rs:374-401 | a member that dies after saving, before sending or applying, comes back in agreement with the history its last call made |
| `RaftCluster.Histories` | src/raft.rs:590-1097 | every run has such a history throughout |
| `Protocol.LeaderCompleteness` | src/raft.rs:975-1001 | a chosen own-term entry, and everything before it, is in every later leader's log |
| `Protocol.CommittedAgree` | src/raft.rs:975-1001 | any two committed prefixes are prefixes of one another |
| `Protocol.QuorumsMeet` | src/raft.rs:386-388 | two majorities of the same group share a member |
| `ProtocolSteps.CastVote` | src/raft.rs:629-651 | granting a vote under the log test keeps the invariant |
| `ProtocolSteps.UpToDateKeeps` | src/raft.rs:629-632 | a log that passes the vote test holds every own-term entry the voter holds, with all before it, unless a leader elected since already lacked it |
| `ProtocolSteps.Elect` | src/raft.rs:532-565 | a quorum of votes makes a leader and keeps the invariant |
| `ProtocolSteps.Append` | src/raft.rs:1007-1024 | a leader's own append, even one deposed elsewhere, keeps the invariant |
| `ProtocolSteps.Accept` | src/raft.rs:728-754 | replacing a log by a prefix of the leader's that keeps the committed part keeps the invariant |
| `ProtocolSteps.AdvanceCommit` | src/raft.rs:975-1001 | committing what a chosen entry covers keeps the invariant |
| `RaftSplice.SpliceForm` | src/raft.rs:728-754 | the entry-by-entry loop keeps the entries that match, refuses to touch committed ones, and otherwise replaces everything from the first difference on |
| `RaftAppends.HandleAppendOk` | src/raft.rs:682-770 | handling a truthful append leaves the member in agreement with the history |
| `RaftCommit.HandleInstallSnapshotOk` | src/raft.rs:812-874 | installing a truthful snapshot, keeping or discarding the log, leaves the member in agreement with the history |
| `RaftCommit.MatchingIsCount` | src/raft.rs:984-989 | the commit loop's count over distinct peers is the number of peers known to match |
| `RaftCommit.CommittableChosen` | src/raft.rs:975-1001 | an index that passes the commit test is committed in the history |
| `RaftCommit.BatchReplays` | src/raft.rs:1079-1088 | applying a handed-out batch equals replaying the stretch of the full log it stands for |
| `RaftReplication.HandleRequestVoteOk` | src/raft.rs:612-660 | answering a vote request leaves the member in agreement with the history |
| `RaftElections.TickOk` | src/raft.rs:450-479 | a tick, with all it may start, leaves the member in agreement with the history |
| `RaftLocal.Robust` | src/raft.rs:590-1057 | from any valid saved state, under every sequence of calls and arbitrary messages: the store always equals the durable state, it stays valid, term, commit and base never fall, a vote never changes within its term, no committed live entry changes |
| `RaftProgress.Bookkeeping` | src/raft.rs:772-807 | under the same runs: while leading, next stays in 1..last+1 and match and in-flight within the log; between two moments of one leadership no match index falls |
| `RaftRetries.RetriesBounded` | src/raft.rs:772-807 | in any run of calls with arbitrary messages, between two points at which a member leads the same term and with no success of the peer in between, the sends to the peer that refusals cause number at most what its next index fell by, and that index stays at least 1 |
| `RaftSilence.SilentLeaderStepsDown` | src/raft.rs:450-479 | after any run with arbitrary messages, a member with a peer that then hears nothing for twice the longest timeout is not leader, and no number of silent ticks changes its term or vote |
| `RaftAnswers.AppendAnswered` | src/raft.rs:682-770 | for every valid state and well-formed append of at least its term: the sender is the leader from now on; it succeeds exactly if it begins on a known entry and contradicts nothing committed; then what the log already has stays, from the first other entry on the rest is replaced, and the commit index follows the leader's as far as the append vouches; otherwise log and commit index stay, and the answer hints at the end of the log, the index before the one that differs, or the last that agrees |
| `RaftAnswers.SnapshotAnswered` | src/raft.rs:812-874 | a well-formed snapshot is confirmed; up to the commit index it changes nothing else, beyond it the state machine is to be restored from it and of the log stays what follows an entry of the boundary's term |
| `RaftAnswers.StaleLeaderTold` | src/raft.rs:683-691 | an append or snapshot of an earlier term is answered with the member's own and changes nothing |
| `RaftAnswers.MalformedRefused` | src/raft.rs:694-710 | a malformed append or snapshot makes nobody leader and moves neither log nor commit; at most a later term is taken in |
| `RaftAnswers.RefusalAnswered` | src/raft.rs:794-806 | after a refusal a leader resumes at the hint's successor, strictly earlier than before and not before 1, and sends that peer all it then has for it; at 1 it sends nothing |
| `RaftAnswers.HeartbeatExactly` | src/raft.rs:450-455 | a leader's tick sends each peer, in order, every entry from where it resumes or the snapshot that covers it, exactly when the heartbeat is due |
| `RaftAnswers.ProposalSent` | src/raft.rs:1007-1024 | a proposal to a leader appends one entry of its term, commits what then is decided, and sends each peer all it has for it |
| `RaftAnswers.ReadyExactly` | src/raft.rs:1063-1097 | a drain is given what changed, a snapshot to restore if one came, all messages, and in ascending order exactly the commands committed and not handed out before |
| `RaftTrust.PreVoteExactly` | src/raft.rs:612-660 | for every state and request of a peer: a pre-vote is granted if and only if its term is positive and at least the member's, its last entry is lexicographically no earlier, and no leader is known that was heard from within the shortest election timeout; nothing but the answer changes |
| `RaftTrust.VoteExactly` | src/raft.rs:612-660 | a vote is granted if and only if the asker is up to date and its term later than the member's, or the same and the vote free or its own; recorded, to be saved, with the timer restarted; otherwise at most a later term is taken in |
| `RaftTrust.OutsidersIgnored` | src/raft.rs:590-610 | whoever is not a peer, or speaks in another's name, changes nothing |
| `RaftTrust.PreVoteWithheld` | src/raft.rs:636-640 | over every run with arbitrary messages: after a well-formed append or snapshot of its leader, and for fewer ticks than the shortest election timeout, a member still in that term refuses every pre-vote |
| `RaftDisruption.NoDisruption` | src/raft.rs:483-680 | in every run of the group: whoever opens an election while every member of a quorum has trusted its leader since some moment does so on a pre-vote one of them granted before that moment |
| `RaftDisruption.StalePreVoteCounts` | src/raft.rs:662-680 | a granted pre-vote of any term up to the member's own completes a majority and opens an election, whichever request it answers |
| `RaftHearing.HeardLeaderStays` | src/raft.rs:450-471 | over every run with arbitrary messages: a tick takes a leader out of office if and only if its window ends and those whose answers in its term were delivered in the window are no majority with itself; role and term stay otherwise, and the term always |
| `RaftMajority.ElectedExactly` | src/raft.rs:532-536 | a vote makes a candidate leader of its term if and only if it completes more than half of the group |
| `RaftMajority.OpenedExactly` | src/raft.rs:502-506 | likewise a pre-vote and an election of the next term |
| `RaftMajority.AnswerCommits` | src/raft.rs:772-793 | after a success the leader records it and resumes after it; its commit index is then the highest index of an entry of its own term that more than half of the group is known to hold, or as before if there is none above |
| `RaftMajority.SnapshotCommits` | src/raft.rs:876-897 | likewise a confirmed snapshot, which counts for no more than was sent |
| `RaftCatchUp.CatchesUp` | src/raft.rs:711-807 | a leader and a follower with any logs that agree as far as the follower has committed, any next index and any compaction on either side, the follower's snapshot ending before that index or within the leader's: if nothing is lost, after a bounded number of exchanges the follower's log begins with the leader's and the leader knows it |
| `RaftCatchUp.RunCatchesUp` | src/raft.rs:711-807 | the same from every moment of every run of the group |
| `RaftRefusals.AcceptedExactly` | src/raft.rs:711-769 | an append succeeds if and only if it fits the log at prev and contradicts no term at or below the commit index |
| `RaftRefusals.RefusedBelowBase` | src/raft.rs:728-745 | a truthful append that starts below the follower's base succeeds if and only if it starts at 0 and the base is 1 |
| `RaftRefusals.StuckAtStart` | src/raft.rs:794-806 | a leader with an uncompacted log resuming at 1 against a base of at least 2: refused with hint 0, next unmoved, nothing sent |
| `RaftStall.StallReached` | src/raft.rs:728-745 | for any timing and any threshold there is a run of two members, in which nobody compacts a log shorter than the threshold, that ends with a leader resuming at 1 and a follower that has compacted: the append that is on its way is refused, and the refusal moves nothing |
| `RaftEngine.Raft.Tick` | src/raft.rs:450-479 | the in-place tick takes the object to exactly the prescribed state, which `RaftHearing.HeardLeaderStays`, `RaftSilence.SilentLeaderStepsDown` and `RaftAnswers.HeartbeatExactly` describe |
| `RaftEngine.Raft.Step` | src/raft.rs:590-610 | likewise for any message from anyone; `RaftTrust`, `RaftMajority` and `RaftAnswers` say for every kind of message what that state and the answer are |
| `RaftEngine.Raft.Propose` | src/raft.rs:1007-1024 | likewise, returning the index or the known leader |
| `RaftEngine.Raft.Compact` | src/raft.rs:1042-1057 | likewise |
| `RaftEngine.Raft.Ready` | src/raft.rs:1063-1097 | hands over exactly the prescribed effects and leaves the prescribed state |
| `RaftEngine.Raft.SpliceEntries` | src/raft.rs:728-754 | the splice loop computes the prescribed merge, confirmed index and verdict |
| `RaftEngine.Raft.FindCommit` | src/raft.rs:975-1001 | the commit loop finds the highest committable index above the commit index |
| `RaftEngine.Raft.constructor` | src/raft.rs:309-349 | a member starts from what was saved, as a follower of nobody |
| `RaftEngine.EntriesAreContiguous` | src/raft.rs:218-245 | the loop accepts exactly gap-free requests with non-descending terms between 1 and the request's, and a prev index and term that vanish together |
| `RaftStore.WriteLog` | src/raft_store.rs:243-260 | the writer loop produces the header line followed by one line per entry |
| `RaftStore.ReadLog` | src/raft_store.rs:101-151 | the reader loop computes the parse, forgiving only an unreadable unterminated last line |
| `RaftStore.LogRoundTrip` | src/raft_store.rs:243-260 | a written log reads back as its header and entries |
| `RaftStore.TornLog` | src/raft_store.rs:101-151 | any byte prefix of a log file parses, to its header if whole and exactly the entries that are there in full |
| `RaftStore.ValidatePersisted` | src/raft_store.rs:266-340 | the loop accepts exactly the valid states |
| `RaftStore.Store.Open` | src/raft_store.rs:75-192 | returns exactly what can be recovered, refusing an empty or unreadable snapshot or meta, and rewrites the log from it |
| `RaftStore.Store.Save` | src/raft_store.rs:202-231 | refuses invalid states; otherwise leaves exactly the files of the writes done before power is lost |
| `StoreRecovery.TornRecovery` | src/raft_store.rs:101-184 | of a log cut anywhere, recovery keeps exactly the whole records and refuses exactly when a committed one is lost |
| `StoreRecovery.CrashSafe` | src/raft_store.rs:202-231 | for every stored state, successor and point of interruption: opening refuses exactly in two named cases, else returns the old or new (term, vote), the old or new log with its base, a commit no lower, and every committed entry |
| `StoreRecovery.NeverLost` | src/raft_store.rs:75-231 | over any number of interrupted saves and reopenings, no committed entry, term or vote is ever lost |
| `StoreRecovery.EngineSuccessor` | src/raft.rs:590-1057 | any two states a running member saves are related as crash safety requires |
| `RaftDriver.Driver.TryApply` | src/raft_driver.rs:404-467 | one pass through the apply section: refused if the member is unavailable; a restore it needs and cannot read makes it unavailable and changes nothing else; otherwise it waits exactly when there is a gap and leaves the prescribed watermark and state |
| `RaftDriver.EveryInterleaving` | src/raft_driver.rs:404-467 | in whatever order, and however often, drains pass through, restores included, the state is always the fold of the log up to the watermark |
| `RaftDriver.Overtaken` | src/raft_driver.rs:418-437 | once a restore is reflected, every earlier batch or restore that arrives late changes nothing and does not wait |
| `RaftDriver.StaleRestoreReached` | src/raft_driver.rs:418-437 | two chained restores, the later one through first: the earlier takes the stale branch and changes nothing |
| `RaftDriver.NoDeadlock` | src/raft_driver.rs:438-455 | a batch whose predecessors are reflected does not wait |
| `RaftDriver.AllDrained` | src/raft_driver.rs:404-467 | when all drains are through, the state is the fold of exactly everything handed out |
| `RaftReplay.Overlap` | src/raft_driver.rs:578-617 | replaying entries i+1..m on the state at a later j up to m gives the state at m |
| `RaftReplay.TornSnapshotRecovers` | src/raft_driver.rs:719-728 | the same for a snapshot whose placement and plan were read at different moments |
| `RaftReplay.ReplayKeepsLast` | src/cluster.rs:108-137 | a replay leaves at each shard its last assignment, and the last plan |
| `RaftReplay.CompactionRecovers` | src/raft_driver.rs:404-471 | for every chain of batches, interleaving and drain that has been through: compacting at its end with the state as it is recovers every later state if and only if the watermark has reached that end or the state already holds the last assignments and plan of the skipped stretch; the watermark falls short only for a plain empty batch |
| `RaftReplay.EmptyBatchOvertakes` | src/raft_driver.rs:414-471 | for every log, applied up to some index, whose rest would change the state: with the batch of the rest still to come, the empty batch after it goes through without waiting, and compacting after it loses the rest |
| `RaftDriver.AwaitCommit` | src/raft_driver.rs:502-524 | true exactly if some reading shows the commit in the same term and every one before it shows this member available and leading that term |
| `RaftDelivery.DrainsMayInterleave` | src/raft_driver.rs:369-467 | in every run, what a member hands out between restarts chains without gap or repeat over one log, a restore strictly beyond all before it; every interleaving of its drains keeps the state equal to the fold |
| `RaftDelivery.ReturnedTrueIsPermanent` | src/raft_driver.rs:640-655 | if the wait succeeds on what the proposer reads over a run, then whoever commits that far, every leader of a later term and every later leader of the same term holds exactly that command there, live or under its base |
| `RaftDurability.CoveredExactly` | src/raft_driver.rs:374-401 | over every overlapping run and every later moment before the next crash: what a call hands out without asking for a save is covered by the disk if and only if the disk was read after every call up to it that asked, or nothing durable has changed since that read |
| `RaftDurability.AcknowledgedIsHeld` | src/raft.rs:716-769 | every entry a successful answer vouches for is in the log with its term, or under the base |
| `RaftDurability.SettledIsCovered` | src/raft_driver.rs:374-401 | a member satisfies the guard exactly if what it sends at once is covered when it leaves, by the disk and by any save under way |
| `RaftDurability.AckBeforeSave` | src/raft_driver.rs:374-401 | a repeated append is acknowledged at once while the first one's save is still to come and the disk is empty |
| `RaftDurability.HeartbeatBeforeSave` | src/raft.rs:450-455 | a heartbeat that follows a proposal asks for no save and sends every peer that is up to date the proposed entry, which the leader's disk does not have |
| `RaftBallots.CallCasts` | src/raft.rs:450-680 | under every call and message: a request for votes goes out only in a new term with the own vote recorded, a grant only to the asker that is recorded as voted for, both only with a save asked for; a member in office counts its own vote, those it had, and the one it has just heard |
| `RaftOverlapSafety.CrashPointsCovered` | src/raft_store.rs:202-231 | at every moment of an overlapping run, whatever stage the save under way is cut short at, what opening returns unless it refuses is something the model's crash may leave |
| `RaftOverlapSafety.ElectionSafety` | src/raft_driver.rs:370-401 | with calls, saves, sends, compactions and crashes interleaving freely, over every run two members that lead the same term at any two moments are the same member |
| `RaftLoss.CommittedIsLost` | src/raft_driver.rs:370-401 | for any timing there is such a run of three members, with one crash, in which a command is proposed to a leader, later read as committed by it in its term, and the leader of the next term has a log that ends before it |
| `RaftDelay.DelayedRun` | src/raft_driver.rs:374-401 | every overlapping run in which a drain that asks for no save sends only when the disk holds all that is durable is a run of the serialised group with each call put off until the save that covers it; at every moment they differ only by calls nobody has seen |
| `RaftDelay.IdleIsSettled` | src/raft_driver.rs:374-401 | under the guard, a member with nothing waiting and nothing being written has everything durable on disk |
| `RaftCourse.CallFollows` | src/raft.rs:450-1024 | under every call and message: a commit index is the old one, vouched for by a leader of the present term, or matched by a quorum; only a candidate takes office within its term; without an append or snapshot of its term a member only appends, and out of office commits nothing |
| `RaftFork.Fork` | src/raft.rs:975-1001 | in a group of two or more, whatever calls a member has made beyond what the group has seen, what it takes as committed is committed in the history |
| `RaftCareful.LeaderCompleteness` | src/raft.rs:629-651 | under the guard, in groups of two or more: an entry committed at any member, saved or not, is in the log, or under the base, of every leader of a later term at any moment and of every later leader of the same term |
| `RaftCareful.CommittedEntriesAgree` | src/raft.rs:975-1001 | under the guard: an index committed and live at two members, at any two moments, saved or not, holds the same entry |
| `RaftCareful.StateMachineSafety` | src/raft.rs:1063-1097 | under the guard: two members, at any two moments, that were handed the log up to the same index build the same state |
| `RaftPromise.AcknowledgedIsPermanent` | src/raft_driver.rs:502-524 | under the guard: once a proposer reads its index committed in the proposal's term, everyone who commits that far, every leader of a later term and every later leader of the same term holds exactly that command, whoever crashes before saving |
| `RaftLone.SavedIsPermanent` | src/raft_driver.rs:374-401 | in a group of one, an entry that was ever on disk is in the log or under the base at every later moment |
| `RaftLone.LoneCommitIsLost` | src/raft.rs:975-1001 | a run of a group of one, under the guard, in which a commit that was read but not saved is lost |
| `Protocol.VotedComplete` | src/raft.rs:629-651 | whoever has the votes of a quorum, elected or not, campaigned with every entry chosen in an earlier term |
| `Planner.PlanReplicas` | src/plan.rs:36-168 | the imperative planner computes the plan, a function of the set of candidates, and for distinct replicas uses at least the survivors' failure domains and min(free places, other domains) more, from nothing exactly min(rf, domains) |
| `Planner.OrderIndependent` | src/plan.rs:36-168 | two listings of the same candidates give the identical replica sequence |
| `Planner.FillUp` | src/plan.rs:58-77 | the fill loop picks, one after the other, a candidate in an unused domain if there is one, among those the least loaded, among those the lowest id, and nothing better is left lying |
| `Planner.BestSwap` | src/plan.rs:95-162 | the nested search finds the unique best improving swap, or none exactly if there is none |
| `PlanProofs.PlanContract` | src/plan.rs:40-167 | for distinct replicas: exactly min(rf, candidates) distinct candidates, no loss of spread by the swap, at most one of at most rf survivors evicted |
| `PlanProofs.DropExtrasOk` | src/plan.rs:79-89 | when rf shrank, rf of the kept remain, none more loaded than one that goes |
| `PlanProofs.SortByLoadStable` | src/plan.rs:79-89 | replicas of equal load keep their order when sorted |
| `PlanProofs.PlanImproves` | src/plan.rs:91-167 | a later call returns its input or strictly improves (domains, then total load) |
| `PlanProofs.FixedPointSpread` | src/plan.rs:91-167 | every fixed point uses min(rf, candidate domains) domains |
| `PlanProofs.PlanningConverges` | src/plan.rs:36-168 | with candidates fixed, repeated calls from any distinct replicas reach such a fixed point |
| `PlanProofs.SwapReverses` | src/plan.rs:99-111 | once loads follow the replicas, the reverse of an improving swap improves again if and only if it gained no domain and relieved by one |
| `PlanSpread.FillGreedy` | src/plan.rs:58-77 | every candidate picked was, when it was picked, as fresh in domain as every one left, among those no more loaded, among those of the lowest id |
| `PlanSpread.PlanSpreads` | src/plan.rs:36-168 | with at most rf survivors a plan uses at least their domains and min(free places, other domains) more; from nothing exactly min(rf, domains) |
| `PlanSpread.SwapIsBest` | src/plan.rs:95-162 | no other single replacement gives more domains, or as many at a lower total load; and nothing is replaced unless it gains |
| `PlanSpread.SwapTies` | src/plan.rs:95-162 | of equally good replacements the one with the most loaded victim, then the lowest newcomer, then the lowest victim is made |
| `ReplicaFlap.ReplicaFlaps` | src/scheduler.rs:171-322 | with one shard, one replica and exactly two healthy nodes, whatever else holds: after any number of ticks the replica and its leadership are where they were, or at the other node, by turns |
| `Leadership.BestSlotIsBest` | src/leadership.rs:33-73 | the preferred leader is the unique first eligible slot by region, provider, load, observed leader and id; none exactly if none is eligible |
| `Leadership.DesiredLeaderCanLead` | src/leadership.rs:84-106 | the desired leader is a healthy replica; none exactly if no replica is healthy |
| `Leadership.PolicyDecides` | src/leadership.rs:33-73 | in the slots' own fields, names equal up to ASCII case: in the home region if any eligible slot is; among those alike, of the preferred provider if any is; then of the least leader load; then the observed leader; then the least id |
| `Leadership.DesiredLeaderOrder` | src/leadership.rs:84-106 | the preferred node if it is a healthy replica, else the present leader if it is, else the first replica that is |
| `NodeOrder.LessIsLexicographic` | src/leadership.rs:70 | ids compare by the first character that differs, a prefix first |
| `TickLaws.UnknownStays` | src/scheduler.rs:182-192 | for every environment and placement, a tick leaves the whole assignment of a shard as it is whenever one of its replicas is not in membership |
| `TickLaws.FrozenUntilHeard` | src/scheduler.rs:182-192 | after a failover, over any continuation, an assignment stays as it is until every one of its replicas has been heard from |
| `TickLaws.TickDecides` | src/scheduler.rs:171-222 | a shard is planned if and only if all its replicas are known and there are active nodes for rf or for as many as it has; then it has min(rf, active nodes) distinct active replicas, else it stays as it is; without an assignment it starts from what healthy nodes report |
| `TickLaws.TickSpreads` | src/scheduler.rs:171-212 | a planned shard loses at most one active replica if they are not too many, keeps their failure domains in number, and gains one for every free place while active nodes offer one; from nothing it uses min(rf, domains) |
| `TickLaws.TickPrefers` | src/scheduler.rs:232-330 | the leader asked for a planned shard is a replica in the policy's home region if any replica is; among those alike, of the preferred provider; then leading fewest other shards by a recount; then the observed leader, else the lowest id; the policy's wishes are carried along |
| `TickLaws.ActiveExactly` | src/scheduler.rs:380-400 | a tick works with a node if and only if it is healthy and fewer than the target number of healthy nodes have more replicas, or as many and a lower id |
| `TickLaws.SweepDecides` | src/membership.rs:177-215 | draining stays; otherwise dead if and only if the oracle says gone, or knows nothing and the silence has reached the limit; healthy if and only if not gone and silent for less than both limits; nothing else changes |
| `TickLaws.LeavesExactly` | src/scheduler.rs:322-340 | a tick forgets a node if and only if it is draining, hosts nothing, and no assignment of the new placement names it |
| `TickLaws.DrainStays` | src/membership.rs:70-142 | over any run in which it stays in membership, a draining node stays draining, whatever it reports |
| `ReplicaCounts.TurnLoads` | src/scheduler.rs:222-232 | a turn keeps the incremental replica counts equal to a recount if and only if the shard is left alone, or had an assignment, or none of the active replicas it adopts counts for anything yet |
| `ReplicaCounts.LoneNodeUndercounted` | src/scheduler.rs:222-232 | on a cold start with a lone healthy node that reports every shard, after any number of turns it holds that many shards and is counted with one |
| `ReplicaCounts.TickPlans` | src/scheduler.rs:171-212 | in a tick that adopts nothing, each planned shard gets what the planner makes of its replicas, the active nodes' failure domains and their true counts at that point |
| `HeartbeatLaws.HeartbeatExactly` | src/membership.rs:72-142 | a stale report changes nothing; any other changes its own node only, field by field: empty fields erase nothing, the number never falls, draining stays |
| `HeartbeatLaws.NewestStands` | src/membership.rs:75-92 | however the numbered reports of a node are delayed, repeated or overtake each other, and whatever else happens, what is known of its shards is what the first report with the highest number says, as long as it stays in membership |
| `HeartbeatLaws.SameDomain` | src/membership.rs:218-265 | reports that differ only in surrounding white space and ASCII case name the same failure domain |
| `HeartbeatLaws.CanonicalTwice` | src/membership.rs:218-221 | a name in canonical form stays as it is |
| `ReplicaFloor.FloorHolds` | src/scheduler.rs:77-340 | after any sequence of heartbeats, sweeps, drains, policies, failovers and ticks every assignment has at most RF distinct replicas, all heard of and not forgotten, led by one of them; none ever disappears or shrinks; without a failover all replicas are in membership |
| `ReplicaFloor.SanitizedOk` | src/api.rs:130-140 | a sanitized report lists exactly the existing reported shards once each, and leads only what it hosts |
| `ReplicaFloor.TurnFits` | src/scheduler.rs:171-318 | one shard's turn keeps all assignments fit and shrinks none |
| `LeaderBalance.AlwaysCounted` | src/scheduler.rs:139-269 | at every point of a tick the incremental leader counts equal a recount |
| `LeaderBalance.TurnDescends` | src/scheduler.rs:232-269 | a turn that keeps the replicas keeps the leader, or lowers (policy mismatch, squared leader loads, tie-break rank) |
| `LeaderBalance.TickDescends` | src/scheduler.rs:77-322 | a tick that changes no replicas moves no leader or lowers the same potential |
| `LeaderBalance.LeadersComeToRest` | src/scheduler.rs:77-322 | with everything else fixed, ticks reach one that moves no leader, unless one changes replicas first |
| `LeaderBalance.EvenAtRest` | src/scheduler.rs:232-269 | at rest, with no policies and one replica set, leader counts differ by at most one |
| `Scheduler.ControlPlane.Reconcile` | src/scheduler.rs:77-340 | on a leader, the in-place tick takes membership and placement to exactly the prescribed state, which `TickLaws` describes shard by shard; on anyone else nothing changes |
| `Scheduler.ControlPlane.HeartbeatFrom` | src/membership.rs:72-142 | likewise for a heartbeat, returning the health it leaves; a stale or repeated one changes nothing |
| `Scheduler.RefreshEntry` | src/membership.rs:94-129 | the entry of a node after a report: empty fields keep what was known, the failure domain is normalised, or derived from what is known by then |
| `Scheduler.NormalizedFromParts` | src/membership.rs:242-265 | the non-empty parts, trimmed and lower-cased, joined by slashes; the fallback exactly if there are none |
| `Scheduler.ControlPlane.SweepNodes` | src/membership.rs:177-215 | likewise for a sweep, returning exactly the newly dead |
| `Scheduler.ControlPlane.Forget` | src/cluster.rs:116-136 | a node that any assignment names is never removed from membership |
| `Scheduler.ActiveNodesForTarget` | src/scheduler.rs:380-400 | the target busiest nodes, ties by id, each once and in ascending order |
| `Scheduler.SanitizeReport` | src/api.rs:130-140 | the two retain passes compute the sanitized report |

## Left out

- `RaftSafety` takes one engine call with saving, applying and sending its effects as one step of the group, which is the contract at src/raft_driver.rs:9-13, or as one step that dies right after saving. The code does not enforce that contract for overlapping drains; `RaftCareful` and `RaftPromise` need only the guard named under Findings, which it does not enforce either.
- A crash in the middle of a save is treated in `StoreRecovery` for what is stored and in `RaftOverlapSafety` for votes; in `RaftCareful` a crash finds the old or the new contents. That logs and commits of the group stay safe when such a member, with a mixture of old and new files, comes back is not stated.
- All members start from the same state machine contents and an empty log. Peers are distinct and exclude the member itself, as src/main.rs:323-330 establishes.
- The random generator is an arbitrary stream; only the range of timeouts matters. Terms and indexes do not overflow.
- RaftStore.Store.Open: I/O errors other than a missing file are not modelled. The JSON of log, meta and snapshot is an arbitrary encoding that reads back, is not empty, and for log records has no newline and no readable proper prefix; a snapshot that does not parse is refused here, while the source refuses it at the restore that follows. Renames are atomic and synced.
- RaftDriver.AwaitCommit: the deadline and the condition variable are the end of the sequence of readings, an arbitrary choice.
- RaftDriver.Driver.TryApply: the wait loop is modelled as coming back later, and whether a restore can be read is given; message routing and the outbox are not modelled, and `maybe_compact` appears as the compaction event of the group.
- RaftDriver.Driver.ApplyCommand: `ForgetNode` changes membership, which is not replicated; its effect is modelled in `Scheduler.ControlPlane.Forget`.
- Progress of the group: that a leader is eventually elected is not stated. `RaftCatchUp.CatchesUp` is about exchanges between two members in which nothing is lost, not about timing.
- Scheduler.ControlPlane.Reconcile: over the synchronous single-member control plane with a constant scale plan; a proposal that fails or commits later is not modelled. Nothing is claimed about replica placement converging across ticks, which it need not.
- The placement generation counter, HTTP handlers, forwarding, authentication, telemetry, configuration parsing, the Kubernetes oracle (an arbitrary verdict here), status reporting and external locks.
