/** Rebalancing moves requests without losing any; the endgame duplicates a bounded few. */
module SchedulerTransfers {
  import opened Counting
  import opened SchedulerModel
  import opened SchedulerInvariant
  import opened SchedulerPolicy

  // ---------------------------------------------------------------- rebalancing

  /** Nothing unfinished appears or disappears from the air. */
  ghost predicate SameAir(s: State, r: State)
    requires Wf(s)
  {
    forall c, sub :: 0 <= c < |s.chunks| && 0 <= sub < |s.done[c]| && !s.done[c][sub] ==>
      (Carried(r.peers, c, sub) <==> Carried(s.peers, c, sub))
  }

  /** Peers other than the receiver only give up requests, and only full sources do. */
  ghost predicate OnlySourcesYield(s: State, r: State, p: nat) {
    && |r.peers| == |s.peers|
    && (forall q :: 0 <= q < |s.peers| && q != p ==>
          && r.peers[q].pending <= s.peers[q].pending
          && (r.peers[q] != s.peers[q] ==> IsFullSource(s.peers[q], |s.chunks|))
          && (forall c :: Flying(r.peers[q], c) <= Flying(s.peers[q], c)))
  }

  /** A request moved to p: advertised by p, flying at a full source before, at p and no longer at
      that source now. */
  ghost predicate Moved(s: State, r: State, p: nat, e: Effect)
    requires p < |s.peers| && p < |r.peers|
  {
    && e.Request? && e.slot == s.peers[p].slotId
    && Serves(s, p, e.chunk)
    && e.begin in Flying(r.peers[p], e.chunk)
    && exists q: nat :: q < |s.peers| && q != p && IsFullSource(s.peers[q], |s.chunks|)
                        && e.begin in Flying(s.peers[q], e.chunk)
                        && q < |r.peers| && e.begin !in Flying(r.peers[q], e.chunk)
  }

  /** What a rebalancing step from s to r does for receiver p, moving at most `moves` requests. */
  ghost predicate Transfer(s: State, r: State, p: nat, sent: seq<Effect>, moves: nat)
    requires Wf(s) && p < |s.peers|
  {
    && SameAir(s, r)
    && OnlySourcesYield(s, r, p)
    && r.effects == s.effects + sent
    && r.peers[p].pending == s.peers[p].pending + moves
    && (moves > 0 ==> r.peers[p].pending <= s.peers[p].cap)
    && (forall c :: Flying(s.peers[p], c) <= Flying(r.peers[p], c))
    && (forall i :: 0 <= i < |sent| ==> sent[i].Cancel? || Moved(s, r, p, sent[i]))
    && CountRequests(sent) == moves
  }

  function CountRequests(sent: seq<Effect>): nat {
    if |sent| == 0 then 0 else CountRequests(sent[..|sent| - 1]) + (if sent[|sent| - 1].Request? then 1 else 0)
  }

  lemma {:induction false} CountRequestsConcat(a: seq<Effect>, b: seq<Effect>)
    ensures CountRequests(a + b) == CountRequests(a) + CountRequests(b)
  {
    if |b| == 0 { assert a + b == a; }
    else {
      assert (a + b)[..|a + b| - 1] == a + b[..|b| - 1];
      CountRequestsConcat(a, b[..|b| - 1]);
    }
  }

  lemma YieldCompose(s: State, m: State, r: State, p: nat)
    requires p < |s.peers| && Scheduled(s, m) && OnlySourcesYield(s, m, p) && OnlySourcesYield(m, r, p)
    ensures OnlySourcesYield(s, r, p)
  {
  }

  lemma MovedLater(s: State, m: State, r: State, p: nat, e: Effect)
    requires p < |s.peers| && p < |m.peers| && p < |r.peers| && Scheduled(s, m) && OnlySourcesYield(s, m, p)
    requires Moved(m, r, p, e)
    ensures Moved(s, r, p, e)
  {
    var q: nat :| q < |m.peers| && q != p && IsFullSource(m.peers[q], |m.chunks|)
                  && e.begin in Flying(m.peers[q], e.chunk)
                  && q < |r.peers| && e.begin !in Flying(r.peers[q], e.chunk);
    assert IsFullSource(s.peers[q], |s.chunks|) && e.begin in Flying(s.peers[q], e.chunk);
  }

  lemma TransferCompose(s: State, m: State, r: State, p: nat, sent1: seq<Effect>, sent2: seq<Effect>, k1: nat, k2: nat)
    requires Wf(s) && Wf(m) && p < |s.peers| && p < |m.peers| && Scheduled(s, m)
    requires Transfer(s, m, p, sent1, k1) && Transfer(m, r, p, sent2, k2)
    ensures Transfer(s, r, p, sent1 + sent2, k1 + k2)
  {
    CountRequestsConcat(sent1, sent2);
    YieldCompose(s, m, r, p);
    forall i | 0 <= i < |sent1 + sent2|
      ensures (sent1 + sent2)[i].Cancel? || Moved(s, r, p, (sent1 + sent2)[i])
    {
      if i >= |sent1| && !sent2[i - |sent1|].Cancel? { MovedLater(s, m, r, p, sent2[i - |sent1|]); }
    }
  }

  lemma TransferAfterIdle(s: State, m: State, r: State, p: nat, sent: seq<Effect>, k: nat)
    requires Wf(s) && Wf(m) && p < |s.peers| && p < |m.peers| && Scheduled(s, m)
    requires Transfer(s, m, p, [], 0) && Transfer(m, r, p, sent, k)
    ensures Transfer(s, r, p, sent, k)
  {
    TransferCompose(s, m, r, p, [], sent, 0, k);
    assert [] + sent == sent;
  }

  lemma DropDoneTransfers(s: State, p: nat, q: nat, c: nat, begin: nat)
    requires Wf(s) && p < |s.peers| && q < |s.peers| && p != q && IsFullSource(s.peers[q], |s.chunks|)
    requires c in s.peers[q].inFlight && begin in s.peers[q].inFlight[c]
    requires c < |s.chunks| && SubOf(begin) < Total(s, c) && s.done[c][SubOf(begin)] && begin % 16384 == 0
    ensures Transfer(s, DropDone(s, q, c, begin), p, [], 0)
  {
    var r := DropDone(s, q, c, begin);
    forall c', sub' | 0 <= c' < |s.chunks| && 0 <= sub' < |s.done[c']| && !s.done[c'][sub']
      ensures Carried(r.peers, c', sub') <==> Carried(s.peers, c', sub')
    {
      DropDoneCarries(s, q, c, begin, c', sub');
    }
  }

  lemma MoveOneKeepsAir(s: State, q: nat, p: nat, c: nat, begin: nat, now: nat)
    requires Wf(s) && p < |s.peers| && q < |s.peers| && p != q
    requires c in s.peers[q].inFlight && begin in s.peers[q].inFlight[c]
    ensures SameAir(s, MoveOne(s, q, p, c, begin, now))
  {
    forall c', sub' | 0 <= c' < |s.chunks| && 0 <= sub' < |s.done[c']| && !s.done[c'][sub']
      ensures Carried(MoveOne(s, q, p, c, begin, now).peers, c', sub') <==> Carried(s.peers, c', sub')
    {
      MoveCarries(s, q, p, c, begin, now, c', sub');
    }
  }

  lemma MoveOneYields(s: State, q: nat, p: nat, c: nat, begin: nat, now: nat)
    requires Wf(s) && p < |s.peers| && q < |s.peers| && p != q && IsFullSource(s.peers[q], |s.chunks|)
    requires c in s.peers[q].inFlight && begin in s.peers[q].inFlight[c]
    ensures OnlySourcesYield(s, MoveOne(s, q, p, c, begin, now), p)
    ensures forall x :: Flying(s.peers[p], x) <= Flying(MoveOne(s, q, p, c, begin, now).peers[p], x)
  {
  }

  lemma MoveOneTransfers(s: State, q: nat, p: nat, c: nat, begin: nat, now: nat) returns (sent: seq<Effect>)
    requires Wf(s) && p < |s.peers| && q < |s.peers| && p != q && IsFullSource(s.peers[q], |s.chunks|)
    requires c in s.peers[q].inFlight && begin in s.peers[q].inFlight[c]
    requires Serves(s, p, c) && s.peers[p].pending < s.peers[p].cap
    ensures Transfer(s, MoveOne(s, q, p, c, begin, now), p, sent, 1)
  {
    var r := MoveOne(s, q, p, c, begin, now);
    var cancel := if s.canCancel then [Cancel(s.peers[q].slotId, c, begin)] else [];
    sent := cancel + [Request(s.peers[p].slotId, c, begin)];
    CountRequestsConcat(cancel, [Request(s.peers[p].slotId, c, begin)]);
    MoveOneKeepsAir(s, q, p, c, begin, now);
    MoveOneYields(s, q, p, c, begin, now);
    assert Moved(s, r, p, Request(s.peers[p].slotId, c, begin)) by {
      assert begin in Flying(s.peers[q], c);
    }
  }

  /** The source at q: skipped, relieved of a finished sub-block, or the one that yields. */
  lemma ScanStepTransfers(s: State, p: nat, c: nat, q: nat, now: nat)
    returns (s1: State, sent: seq<Effect>, moved: bool)
    requires Wf(s) && p < |s.peers| && q < |s.peers| && Serves(s, p, c)
    requires s.peers[p].pending < s.peers[p].cap
    ensures Wf(s1) && Scheduled(s, s1) && Transfer(s, s1, p, sent, if moved then 1 else 0)
    ensures ScanSources(s, p, c, q, now) == if moved then Scan(s1, true) else ScanSources(s1, p, c, q + 1, now)
    ensures !moved ==> sent == [] && s1.peers[p] == s.peers[p] && s1.chunks == s.chunks
  {
    s1, sent, moved := s, [], false;
    NothingMoved(s, p);
    if CanYield(s, p, q, c) {
      var begin := MinOf(Flying(s.peers[q], c));
      assert FlightsInRange(s.subBlocks, |s.chunks|, s.peers[q].inFlight);
      if s.done[c][SubOf(begin)] {
        s1 := DropDone(s, q, c, begin);
        DropDoneTransfers(s, p, q, c, begin);
      } else {
        s1, moved := MoveOne(s, q, p, c, begin, now), true;
        MoveOneScheduled(s, q, p, c, begin, now);
        sent := MoveOneTransfers(s, q, p, c, begin, now);
      }
    }
  }

  lemma {:induction false} ScanSourcesTransfers(s: State, p: nat, c: nat, q: nat, now: nat)
    returns (r: Scan, sent: seq<Effect>)
    requires Wf(s) && p < |s.peers| && q <= |s.peers| && Serves(s, p, c)
    requires s.peers[p].pending < s.peers[p].cap
    ensures r == ScanSources(s, p, c, q, now)
    ensures Transfer(s, r.s, p, sent, if r.moved then 1 else 0)
    decreases |s.peers| - q
  {
    if q == |s.peers| {
      r, sent := Scan(s, false), [];
      NothingMoved(s, p);
    } else {
      var s1, sent1, moved := ScanStepTransfers(s, p, c, q, now);
      if moved {
        r, sent := Scan(s1, true), sent1;
      } else {
        r, sent := ScanSourcesTransfers(s1, p, c, q + 1, now);
        TransferAfterIdle(s, s1, r.s, p, sent, if r.moved then 1 else 0);
      }
    }
  }

  lemma NothingMoved(s: State, p: nat)
    requires Wf(s) && p < |s.peers|
    ensures Transfer(s, s, p, [], 0)
  {
  }

  /** The sources of one chunk, scanned for receiver p. */
  lemma ScanChunkTransfers(s: State, p: nat, c: nat, now: nat) returns (r: Scan, sent: seq<Effect>)
    requires Inv(s) && p < |s.peers| && Serves(s, p, c) && s.peers[p].pending < s.peers[p].cap
    ensures r == ScanSources(s, p, c, 0, now) && Inv(r.s) && Scheduled(s, r.s)
    ensures Transfer(s, r.s, p, sent, if r.moved then 1 else 0)
  {
    var r0 := ScanSourcesKeeps(s, p, c, 0, now);
    r, sent := ScanSourcesTransfers(s, p, c, 0, now);
  }

  lemma {:induction false} ScanChunksTransfers(s: State, p: nat, k: nat, now: nat) returns (r: Scan, sent: seq<Effect>)
    requires Inv(s) && p < |s.peers| && k <= |s.active|
    ensures r == ScanChunks(s, p, k, now) && Transfer(s, r.s, p, sent, if r.moved then 1 else 0)
    decreases |s.active| - k
  {
    if k == |s.active| || s.peers[p].pending >= s.peers[p].cap {
      r, sent := Scan(s, false), [];
      NothingMoved(s, p);
    } else if !Advertises(s.peers[p], s.active[k]) || s.chunks[s.active[k]] == Complete {
      r, sent := ScanChunksTransfers(s, p, k + 1, now);
    } else {
      r, sent := ScanChunkTransfers(s, p, s.active[k], now);
      if !r.moved {
        var r2, more := ScanChunksTransfers(r.s, p, k + 1, now);
        TransferCompose(s, r.s, r2.s, p, sent, more, 0, if r2.moved then 1 else 0);
        r, sent := r2, sent + more;
      }
    }
  }

  lemma ScanOnceTransfers(s: State, p: nat, now: nat) returns (scan: Scan, sent: seq<Effect>)
    requires Inv(s) && p < |s.peers|
    ensures scan == ScanChunks(s, p, 0, now) && Inv(scan.s) && Scheduled(s, scan.s)
    ensures Transfer(s, scan.s, p, sent, if scan.moved then 1 else 0)
  {
    scan := ScanChunksKeeps(s, p, 0, now);
    var scan0;
    scan0, sent := ScanChunksTransfers(s, p, 0, now);
  }

  lemma {:induction false} MoveLoopTransfers(s: State, p: nat, now: nat, left: nat)
    returns (r: State, sent: seq<Effect>, moves: nat)
    requires Inv(s) && p < |s.peers|
    ensures r == MoveLoop(s, p, now, left)
    ensures moves <= left && Transfer(s, r, p, sent, moves)
    decreases left, 1
  {
    if s.peers[p].pending >= s.peers[p].cap || left == 0 {
      r, sent, moves := s, [], 0;
      NothingMoved(s, p);
    } else {
      var scan;
      scan, sent := ScanOnceTransfers(s, p, now);
      MoveLoopNext(s, p, now, left, scan);
      r, moves := scan.s, 0;
      if scan.moved { r, sent, moves := MoveThenLoop(s, p, now, left, scan.s, sent); }
    }
  }

  lemma {:induction false} MoveThenLoop(s: State, p: nat, now: nat, left: nat, m: State, head: seq<Effect>)
    returns (r: State, sent: seq<Effect>, moves: nat)
    requires Inv(s) && Inv(m) && p < |s.peers| && left > 0 && Scheduled(s, m) && Transfer(s, m, p, head, 1)
    ensures r == MoveLoop(m, p, now, left - 1) && moves <= left && Transfer(s, r, p, sent, moves)
    decreases left, 0
  {
    var more;
    r, more, moves := MoveLoopTransfers(m, p, now, left - 1);
    TransferCompose(s, m, r, p, head, more, 1, moves);
    sent, moves := head + more, 1 + moves;
  }

  /** Rebalancing makes at most maxMoves transfers, each from a full source that carried the
      sub-block to a peer that advertises the chunk, never lifts the receiver above its window, and
      leaves the set of unfinished sub-blocks in the air as it was. */
  lemma RebalanceMovesBoundedly(s: State, p: nat, now: nat, maxMoves: nat)
    requires Inv(s) && p < |s.peers|
    ensures exists sent, moves: nat :: moves <= maxMoves && Transfer(s, Rebalance(s, p, now, maxMoves), p, sent, moves)
  {
    var sent: seq<Effect>, moves: nat := [], 0;
    if IsFullSource(s.peers[p], |s.chunks|) {
      NothingMoved(s, p);
    } else {
      var r;
      r, sent, moves := MoveLoopTransfers(s, p, now, maxMoves);
    }
    assert Transfer(s, Rebalance(s, p, now, maxMoves), p, sent, moves);
  }

  // ---------------------------------------------------------------- seed cap over a tick

  /** The windows a full source is allowed while others hold parts of the file. */
  ghost predicate SeedCapped(s: State, r: State) {
    && |r.peers| == |s.peers|
    && (forall p :: 0 <= p < |s.peers| && IsFullSource(s.peers[p], |s.chunks|) ==>
          r.peers[p].pending <= s.peers[p].pending || r.peers[p].pending <= 32)
  }

  lemma RebalanceSparesSeeds(s: State, p: nat, now: nat, maxMoves: nat) returns (r: State)
    requires Inv(s) && p < |s.peers|
    ensures r == Rebalance(s, p, now, maxMoves) && SeedCapped(s, r) && Inv(r) && Scheduled(s, r)
  {
    r := Rebalance(s, p, now, maxMoves);
    RebalanceMovesBoundedly(s, p, now, maxMoves);
    RebalanceKeeps(s, p, now, maxMoves);
  }

  /** The peer at q has everything and at most so many requests pending. */
  ghost predicate FullBelow(s: State, q: nat, bound: nat) {
    q < |s.peers| && IsFullSource(s.peers[q], |s.chunks|) && s.peers[q].pending <= bound && 32 <= bound
  }

  lemma CappedStaysBelow(s: State, r: State, q: nat, bound: nat)
    requires Scheduled(s, r) && SeedCapped(s, r) && FullBelow(s, q, bound)
    ensures FullBelow(r, q, bound)
  {
  }

  lemma RebalanceStaysBelow(s: State, p: nat, now: nat, q: nat, bound: nat)
    requires Inv(s) && p < |s.peers| && FullBelow(s, q, bound)
    ensures Inv(Rebalance(s, p, now, 4)) && FullBelow(Rebalance(s, p, now, 4), q, bound)
  {
    var r := RebalanceSparesSeeds(s, p, now, 4);
    CappedStaysBelow(s, r, q, bound);
  }

  lemma {:induction false} RebalanceAllStaysBelow(s: State, p: nat, now: nat, q: nat, bound: nat)
    requires Inv(s) && p <= |s.peers| && FullBelow(s, q, bound)
    ensures FullBelow(RebalanceFrom(s, p, now), q, bound)
    decreases |s.peers| - p
  {
    if p < |s.peers| {
      RebalanceStaysBelow(s, p, now, q, bound);
      RebalanceAllStaysBelow(Rebalance(s, p, now, 4), p + 1, now, q, bound);
    }
  }

  lemma PartialSourcesPersist(s: State, r: State)
    requires Scheduled(s, r) && HasPartialSources(s.peers, |s.chunks|)
    ensures HasPartialSources(r.peers, |r.chunks|)
  {
    var p :| 0 <= p < |s.peers| && IsPartialSource(s.peers[p], |s.chunks|);
    assert IsPartialSource(r.peers[p], |r.chunks|);
  }

  lemma ScheduleSparesSeeds(s: State, p: nat, now: nat)
    requires Inv(s) && p < |s.peers| && HasPartialSources(s.peers, |s.chunks|)
    ensures SeedCapped(s, ScheduleForPeer(s, p, now))
    ensures HasPartialSources(ScheduleForPeer(s, p, now).peers, |ScheduleForPeer(s, p, now).chunks|)
  {
    SchedulingRespectsCap(s, p, now);
    ScheduleForPeerKeeps(s, p, now);
    PartialSourcesPersist(s, ScheduleForPeer(s, p, now));
  }

  lemma ScheduleStaysBelow(s: State, p: nat, now: nat, q: nat, bound: nat)
    requires Inv(s) && p < |s.peers| && HasPartialSources(s.peers, |s.chunks|) && FullBelow(s, q, bound)
    ensures var r := ScheduleForPeer(s, p, now);
            Inv(r) && HasPartialSources(r.peers, |r.chunks|) && FullBelow(r, q, bound)
  {
    ScheduleSparesSeeds(s, p, now);
    ScheduleForPeerKeeps(s, p, now);
    CappedStaysBelow(s, ScheduleForPeer(s, p, now), q, bound);
  }

  lemma {:induction false} ScheduleAllStaysBelow(s: State, p: nat, now: nat, q: nat, bound: nat)
    requires Inv(s) && p <= |s.peers| && HasPartialSources(s.peers, |s.chunks|) && FullBelow(s, q, bound)
    ensures FullBelow(ScheduleAllFrom(s, p, now), q, bound)
    decreases |s.peers| - p
  {
    if p < |s.peers| {
      ScheduleStaysBelow(s, p, now, q, bound);
      ScheduleAllStaysBelow(ScheduleForPeer(s, p, now), p + 1, now, q, bound);
    }
  }

  lemma TickStaysBelow(s: State, now: nat, q: nat, bound: nat)
    requires Inv(s) && s.phase == Normal && HasPartialSources(s.peers, |s.chunks|) && FullBelow(s, q, bound)
    ensures FullBelow(Tick(s, now), q, bound)
  {
    var s1 := RebalanceFrom(s, 0, now);
    RebalanceFromKeeps(s, 0, now);
    RebalanceAllStaysBelow(s, 0, now, q, bound);
    PartialSourcesPersist(s, s1);
    ScheduleAllFromKeeps(s1, 0, now);
    ScheduleAllStaysBelow(s1, 0, now, q, bound);
  }

  /** While a partial source is connected, no tick before the endgame lifts a full source above 32
      outstanding requests. */
  lemma TickSparesSeeds(s: State, now: nat)
    requires Inv(s) && s.phase == Normal && HasPartialSources(s.peers, |s.chunks|)
    ensures SeedCapped(s, Tick(s, now))
  {
    TickKeeps(s, now);
    forall q | 0 <= q < |s.peers| && IsFullSource(s.peers[q], |s.chunks|)
      ensures Tick(s, now).peers[q].pending <= s.peers[q].pending || Tick(s, now).peers[q].pending <= 32
    {
      TickStaysBelow(s, now, q, if s.peers[q].pending < 32 then 32 else s.peers[q].pending);
    }
  }
}
