/**
 * What membership keeps of the reports it gets, in whatever order they come, and when
 * two reports name the same failure domain.
 */
module HeartbeatLaws {
  import opened Model
  import opened SchedulerSpec
  import opened ReplicaFloor
  import Q = Leadership

  // ---- one report -------------------------------------------------------

  /** A numbered report that is no newer than one already taken. */
  predicate Stale(nodes: Nodes, id: NodeId, r: Report) { id in nodes && 0 < r.seq_ <= nodes[id].lastSeq }

  predicate Names(field: string, given: string, otherwise: string) {
    if given == "" then field == otherwise else field == given
  }

  /**
   * A stale report changes nothing. Any other changes its own node only: the shards are those
   * reported, the text fields those reported or, where nothing is, those known; the node has
   * been seen now and is healthy, or still draining, and its number never falls. A domain is
   * replaced only if one is reported.
   */
  lemma HeartbeatExactly(nodes: Nodes, id: NodeId, now: nat, r: Report)
    ensures var q := Heartbeat(nodes, id, now, r);
            if Stale(nodes, id, r) then q == nodes
            else
              && q.Keys == nodes.Keys + {id} && (forall n :: n in nodes && n != id ==> q[n] == nodes[n])
              && q[id].hosted == r.hosted && q[id].leading == r.leading && q[id].lastSeen == now
              && (id !in nodes ==>
                    && q[id].address == r.address && q[id].cloudProvider == r.cloudProvider && q[id].region == r.region
                    && q[id].clusterId == r.clusterId && q[id].lastSeq == r.seq_ && q[id].health == Healthy)
              && (id in nodes ==>
                    && Names(q[id].address, r.address, nodes[id].address)
                    && Names(q[id].cloudProvider, r.cloudProvider, nodes[id].cloudProvider)
                    && Names(q[id].region, r.region, nodes[id].region)
                    && Names(q[id].clusterId, r.clusterId, nodes[id].clusterId)
                    && q[id].lastSeq >= nodes[id].lastSeq && (r.seq_ != 0 ==> q[id].lastSeq == r.seq_)
                    && (r.seq_ == 0 ==> q[id].lastSeq == nodes[id].lastSeq)
                    && (q[id].health == if nodes[id].health == Draining then Draining else Healthy)
                    && (r.failureDomain == "" && nodes[id].failureDomain != "" ==>
                          q[id].failureDomain == nodes[id].failureDomain))
              && (r.failureDomain != "" ==> q[id].failureDomain == DomainOf(r))
  {
    hide DomainOf, DomainFromParts;
  }

  // ---- reports in any order ---------------------------------------------

  /** The number of the report, if this is one of node `n`. */
  function Number(h: Happening, n: NodeId): nat { if h.Beats? && h.id == n then h.report.seq_ else 0 }

  predicate Numbered(hs: seq<Happening>, n: NodeId) {
    forall i :: 0 <= i < |hs| && hs[i].Beats? && hs[i].id == n ==> hs[i].report.seq_ > 0
  }

  lemma NumberMoves(c: Setup, w: World, h: Happening, n: NodeId)
    requires n in After(c, w, h).nodes
    ensures n in w.nodes || (h.Beats? && h.id == n)
    ensures var was := if n in w.nodes then w.nodes[n].lastSeq else 0;
            After(c, w, h).nodes[n].lastSeq == if was < Number(h, n) then Number(h, n) else was
    ensures n in w.nodes && (!(h.Beats? && h.id == n) || 0 < Number(h, n) <= w.nodes[n].lastSeq) ==>
              After(c, w, h).nodes[n].hosted == w.nodes[n].hosted
              && After(c, w, h).nodes[n].leading == w.nodes[n].leading
  {
    hide Reconciled, Sanitized, DomainOf, DomainFromParts;
    if h.Beats? {
      SanitizedNumber(h.report, c.shardCount);
    }
  }

  lemma SanitizedNumber(r: Report, shardCount: nat)
    ensures Sanitized(r, shardCount).seq_ == r.seq_
  {
    hide Retain;
  }

  /** The number kept for a node never exceeds those it has been sent. */
  lemma {:induction false} NumberBound(c: Setup, w: World, hs: seq<Happening>, n: NodeId, bound: nat)
    requires n in AfterAll(c, w, hs).nodes && (n in w.nodes ==> w.nodes[n].lastSeq <= bound)
    requires forall i :: 0 <= i < |hs| ==> Number(hs[i], n) <= bound
    ensures AfterAll(c, w, hs).nodes[n].lastSeq <= bound
  {
    hide After;
    if hs != [] {
      var k := |hs| - 1;
      var v := AfterAll(c, w, hs[..k]);
      NumberMoves(c, v, hs[k], n);
      if n in v.nodes {
        NumberBound(c, w, hs[..k], n, bound);
      }
    }
  }

  lemma NewerTaken(c: Setup, w: World, h: Happening)
    requires h.Beats? && h.report.seq_ > 0 && (h.id in w.nodes ==> w.nodes[h.id].lastSeq < h.report.seq_)
    ensures var r := After(c, w, h); h.id in r.nodes && Shows(c, r, h)
  {
    hide DomainOf, DomainFromParts, Retain;
  }

  /** Membership has what this report says. */
  predicate Shows(c: Setup, w: World, h: Happening)
    requires h.Beats? && h.id in w.nodes
  {
    var said := Sanitized(h.report, c.shardCount);
    w.nodes[h.id].hosted == said.hosted && w.nodes[h.id].leading == said.leading
      && w.nodes[h.id].lastSeq == h.report.seq_
  }

  /**
   * The newest report stands. However the numbered reports of a node are delayed, repeated or
   * overtake each other, and whatever sweeps, drains, ticks and reports of others come in
   * between: as long as the node stays in membership, what is known of its shards is what the
   * first report with the highest number says.
   */
  lemma {:induction false} NewestStands(c: Setup, w: World, hs: seq<Happening>, n: NodeId, i: nat)
    requires Numbered(hs, n) && i < |hs| && hs[i].Beats? && hs[i].id == n
    requires n in w.nodes ==> w.nodes[n].lastSeq < Number(hs[i], n)
    requires forall j :: 0 <= j < i ==> Number(hs[j], n) < Number(hs[i], n)
    requires forall j :: i < j < |hs| ==> Number(hs[j], n) <= Number(hs[i], n)
    requires forall j :: i < j <= |hs| ==> n in AfterAll(c, w, hs[..j]).nodes
    ensures n in AfterAll(c, w, hs).nodes && Shows(c, AfterAll(c, w, hs), hs[i])
  {
    hide After, Shows;
    var k := |hs| - 1;
    var v := AfterAll(c, w, hs[..k]);
    if i == k {
      if n in v.nodes {
        NumberBound(c, w, hs[..k], n, Number(hs[i], n) - 1);
      }
      NewerTaken(c, v, hs[k]);
    } else {
      assert forall j :: 0 <= j <= k ==> hs[..k][..j] == hs[..j];
      assert hs[..k + 1] == hs;
      NewestStands(c, w, hs[..k], n, i);
      StillShows(c, v, hs[i], hs[k]);
    }
  }

  lemma StillShows(c: Setup, w: World, h: Happening, next: Happening)
    requires h.Beats? && h.id in w.nodes && Shows(c, w, h) && h.id in After(c, w, next).nodes
    requires next.Beats? && next.id == h.id ==> 0 < next.report.seq_ <= h.report.seq_
    ensures Shows(c, After(c, w, next), h)
  {
    hide After;
    NumberMoves(c, w, next, h.id);
  }

  // ---- failure domains --------------------------------------------------

  predicate Blank(s: string) { forall i :: 0 <= i < |s| ==> IsSpace(s[i]) }

  lemma TrimStep(s: string)
    requires s != ""
    ensures Trim(s) == if IsSpace(s[0]) then Trim(s[1..]) else if IsSpace(s[|s| - 1]) then Trim(s[..|s| - 1]) else s
  {
    hide IsSpace;
  }

  lemma BlankGrows(c: char, s: string)
    requires IsSpace(c) && Blank(s)
    ensures Blank([c] + s) && Blank(s + [c])
  {
    hide IsSpace;
  }

  /** What trimming leaves: everything but the white space at both ends. */
  lemma {:induction false} TrimIs(s: string) returns (left: string, right: string)
    ensures Blank(left) && Blank(right) && s == left + Trim(s) + right
    ensures Trim(s) != "" ==> !IsSpace(Trim(s)[0]) && !IsSpace(Trim(s)[|Trim(s)| - 1])
    decreases |s|
  {
    left, right := "", "";
    if s != "" {
      TrimStep(s);
      hide IsSpace, Trim, Blank;
      if IsSpace(s[0]) {
        left, right := TrimIs(s[1..]);
        BlankGrows(s[0], left);
        left := [s[0]] + left;
      } else if IsSpace(s[|s| - 1]) {
        left, right := TrimIs(s[..|s| - 1]);
        BlankGrows(s[|s| - 1], right);
        right := right + [s[|s| - 1]];
      }
    }
  }

  /** There is only one way to trim. */
  lemma {:induction false} TrimUnique(left: string, core: string, right: string)
    requires Blank(left) && Blank(right)
    requires core != "" ==> !IsSpace(core[0]) && !IsSpace(core[|core| - 1])
    ensures Trim(left + core + right) == core
    decreases |left| + |right|
  {
    hide IsSpace;
    var s := left + core + right;
    if left != "" {
      TrimUnique(left[1..], core, right);
      assert s[1..] == left[1..] + core + right && s[0] == left[0];
    } else if right != "" {
      TrimUnique(left, core, right[..|right| - 1]);
      assert s[..|s| - 1] == left + core + right[..|right| - 1] && s[|s| - 1] == right[|right| - 1];
      if core == "" {
        assert s == right && s[1..] == "" + "" + right[1..] && s[0] == right[0];
        TrimUnique("", "", right[1..]);
      } else {
        assert s[0] == core[0];
      }
    } else {
      assert s == core;
    }
  }

  lemma {:induction false} LowerShape(s: string)
    ensures |Q.Lower(s)| == |s| && forall i :: 0 <= i < |s| ==> (IsSpace(Q.Lower(s)[i]) <==> IsSpace(s[i]))
    ensures Q.Lower(Q.Lower(s)) == Q.Lower(s)
  {
    if s != "" {
      LowerShape(s[1..]);
    }
  }

  /** Two names mean the same exactly if they are equal up to surrounding white space and ASCII case. */
  lemma SameCanonical(a: string, b: string)
    ensures Canonical(a) == Canonical(b) <==> Q.SameName(Trim(a), Trim(b))
  {
    Q.LowerIsSameName(Trim(a), Trim(b));
  }

  /** A name already in canonical form stays as it is. */
  lemma CanonicalTwice(s: string)
    ensures Canonical(Canonical(s)) == Canonical(s)
  {
    hide IsSpace, Q.Lower;
    var left, right := TrimIs(s);
    LowerShape(Trim(s));
    TrimUnique("", Canonical(s), "");
    assert "" + Canonical(s) + "" == Canonical(s);
  }

  /** Reports whose fields differ only in surrounding white space and ASCII case name the same failure domain. */
  lemma SameDomain(a: Report, b: Report)
    requires Q.SameName(Trim(a.failureDomain), Trim(b.failureDomain))
    requires Q.SameName(Trim(a.cloudProvider), Trim(b.cloudProvider)) && Q.SameName(Trim(a.region), Trim(b.region))
    requires Q.SameName(Trim(a.clusterId), Trim(b.clusterId))
    ensures DomainOf(a) == DomainOf(b)
  {
    hide Trim, Q.Lower;
    SameCanonical(a.failureDomain, b.failureDomain);
    SameCanonical(a.cloudProvider, b.cloudProvider);
    SameCanonical(a.region, b.region);
    SameCanonical(a.clusterId, b.clusterId);
  }
}
