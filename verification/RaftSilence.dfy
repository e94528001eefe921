/** How soon a leader notices that nobody answers, and that silence alone never moves a term. */
module RaftSilence {
  import opened Model
  import opened RaftSpec
  import opened RaftProgress
  import L = RaftLocal

  /** `n` ticks, each with its effects taken. */
  function SilentTicks(s: State, n: nat): State {
    if n == 0 then s else TakeReady(Tick(SilentTicks(s, n - 1))).1
  }

  /** Hearing nothing, a member with a peer gets no further than asking for pre-votes. */
  lemma AloneWaits(s: State)
    requires |s.peers| >= 1 && s.role != Leader
    ensures var r := Tick(s); r.role != Leader && r.currentTerm == s.currentTerm && r.votedFor == s.votedFor
                              && r.peers == s.peers && r.cfg == s.cfg
  {
    hide StartPreElection;
    AlonePreElection(s.(electionElapsed := s.electionElapsed + 1));
  }

  /** One's own pre-vote is no quorum. */
  lemma AlonePreElection(s: State)
    requires |s.peers| >= 1
    ensures var r := StartPreElection(s);
            && r.role == PreCandidate && r.currentTerm == s.currentTerm && r.votedFor == s.votedFor
            && r.peers == s.peers && r.cfg == s.cfg
  {
    hide StartElection, Timeout;
    assert |{s.id}| == 1 < Quorum(s);
  }

  /** Ticks until the next check at the latest. */
  function Left(s: State): nat { Max(Minus(s.electionTimeout, s.electionElapsed), 1) }

  /** A silent tick of a leader: it steps down, starts a window in which nobody has answered, or gets closer to one. */
  ghost predicate QuietTick(s: State, r: State) {
    && r.peers == s.peers && r.cfg == s.cfg && r.currentTerm == s.currentTerm && r.votedFor == s.votedFor && Timed(r)
    && (r.role == Leader && Left(s) > 1 ==> r.ackedSinceCheck == s.ackedSinceCheck && Left(r) == Left(s) - 1)
    && (r.role == Leader && Left(s) == 1 ==>
          s.ackedSinceCheck != {} && r.ackedSinceCheck == {} && Left(r) <= Longest(s.cfg))
  }

  lemma QuietCheck(s: State)
    requires |s.peers| >= 1 && s.role == Leader && Timed(s)
    ensures QuietTick(s, CheckQuorum(s))
  {
    hide Timed, Longest, ResetTimer;
    var a := s.(electionElapsed := s.electionElapsed + 1);
    var b := a.(ackedSinceCheck := {});
    assert s.ackedSinceCheck == {} ==> |s.ackedSinceCheck| == 0;
    if a.electionElapsed < a.electionTimeout {
      assert CheckQuorum(s) == a;
      StillTimed(s, a);
    } else {
      var c := if |s.ackedSinceCheck| + 1 < Quorum(s)
               then b.(role := Follower, leaderId := None, votes := {}, snapshotInflight := map[]) else b;
      assert CheckQuorum(s) == ResetTimer(c);
      DrawnInRange(c);
    }
  }

  lemma StillTimed(s: State, r: State)
    requires Timed(s) && r.cfg == s.cfg && r.electionTimeout == s.electionTimeout
    ensures Timed(r)
  {
  }

  lemma DrawnInRange(s: State)
    ensures var r := ResetTimer(s);
            && r == s.(electionElapsed := 0, electionTimeout := r.electionTimeout, drawn := r.drawn)
            && Timed(r) && 1 <= Left(r) <= Longest(s.cfg)
  {
  }

  lemma QuietLeaderTick(s: State)
    requires |s.peers| >= 1 && s.role == Leader && Timed(s)
    ensures QuietTick(s, Tick(s))
  {
    hide Heartbeat, CheckQuorum;
    L.HeartbeatFrame(s);
    QuietCheck(Heartbeat(s));
  }

  /** How long a leader that hears nothing can still lead. */
  function Reign(s: State): nat {
    if s.role != Leader then 0 else Left(s) + if s.ackedSinceCheck == {} then 0 else Longest(s.cfg)
  }

  lemma {:induction false} SilenceCounts(s: State, n: nat)
    requires |s.peers| >= 1 && Timed(s)
    ensures var r := SilentTicks(s, n);
            && r.peers == s.peers && r.cfg == s.cfg && r.currentTerm == s.currentTerm && r.votedFor == s.votedFor
            && (r.role == Leader ==> Timed(r) && Reign(r) + n <= Reign(s))
  {
    hide Tick, Longest;
    if n > 0 {
      SilenceCounts(s, n - 1);
      var a := SilentTicks(s, n - 1);
      if a.role == Leader {
        QuietLeaderTick(a);
      } else {
        AloneWaits(a);
      }
    }
  }

  /** Silence from any state whose timeout was drawn from the configured range. */
  lemma SilentState(s: State, n: nat)
    requires |s.peers| >= 1 && Timed(s)
    ensures SilentTicks(s, n).currentTerm == s.currentTerm && SilentTicks(s, n).votedFor == s.votedFor
    ensures n >= 2 * Longest(s.cfg) ==> SilentTicks(s, n).role != Leader
  {
    SilenceCounts(s, n);
  }

  /** `n` ticks and nothing else. */
  function Silence(n: nat): seq<L.Call> {
    if n == 0 then [] else Silence(n - 1) + [L.CallTick]
  }

  lemma {:induction false} SilenceIsTicks(x: L.Saved, n: nat)
    ensures L.PerformAll(x, Silence(n)).state == SilentTicks(x.state, n)
  {
    hide Tick;
    if n > 0 {
      SilenceIsTicks(x, n - 1);
      assert Silence(n)[..|Silence(n)| - 1] == Silence(n - 1);
    }
  }

  /**
   * Check-quorum: after any run with arbitrary messages, a member with a peer that
   * then receives nothing for twice the longest timeout is not leader, and no
   * number of silent ticks moves its term or vote.
   */
  lemma SilentLeaderStepsDown(id: NodeId, peers: seq<NodeId>, cfg: Config, draws: nat -> nat, p: Persisted,
                              calls: seq<L.Call>, n: nat)
    requires L.ValidPersisted(p) && |peers| >= 1
    ensures var x := L.Saved(New(id, peers, cfg, draws, p), p);
            var a, b := L.PerformAll(x, calls).state, L.PerformAll(x, calls + Silence(n)).state;
            && b.currentTerm == a.currentTerm && b.votedFor == a.votedFor
            && (n >= 2 * Longest(cfg) ==> b.role != Leader)
  {
    hide L.PerformAll, SilentTicks, Silence, Longest, L.ValidPersisted, L.Valid;
    var x := L.Saved(New(id, peers, cfg, draws, p), p);
    Fresh(id, peers, cfg, draws, p);
    RunProgresses(x, calls);
    RunsChain(x, calls, Silence(n));
    var y := L.PerformAll(x, calls);
    SilenceIsTicks(y, n);
    SilentState(y.state, n);
  }

  lemma Fresh(id: NodeId, peers: seq<NodeId>, cfg: Config, draws: nat -> nat, p: Persisted)
    requires L.ValidPersisted(p)
    ensures var s := New(id, peers, cfg, draws, p);
            L.Valid(s) && Durable(s) == p && Timed(s) && s.peers == peers && s.cfg == cfg
  {
  }
}
