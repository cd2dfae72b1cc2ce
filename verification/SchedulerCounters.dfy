/** When the request counter of a chunk is the number of its requested sub-blocks, and when it falls
    behind. */
module SchedulerCounters {
  import opened Counting
  import opened SchedulerModel
  import opened SchedulerInvariant
  import opened SchedulerRuns
  import opened SchedulerPolicy
  import opened SchedulerEvents

  predicate CountExact(s: State, c: nat)
    requires c < |s.req| && c < |s.reqCount|
  {
    s.reqCount[c] == CountTrue(s.req[c])
  }

  lemma {:induction false} CountTrueStrict(small: seq<bool>, big: seq<bool>)
    requires |small| == |big|
    requires forall i :: 0 <= i < |big| ==> small[i] ==> big[i]
    ensures CountTrue(small) == CountTrue(big) <==> small == big
  {
    if |big| > 0 {
      var n := |big| - 1;
      CountTrueMonotone(small[..n], big[..n]);
      CountTrueStrict(small[..n], big[..n]);
      assert small == small[..n] + [small[n]] && big == big[..n] + [big[n]];
    }
  }

  // ---------------------------------------------------------------- rebalancing marks without counting

  /** Some call in sent asks for (c, sub). */
  ghost predicate Asked(sent: seq<Effect>, c: nat, sub: nat) {
    exists i :: 0 <= i < |sent| && AsksFor(sent[i], c, sub)
  }

  predicate AsksFor(e: Effect, c: nat, sub: nat) { e.Request? && e.chunk == c && e.begin == BeginOf(sub) }

  lemma AskedConcat(a: seq<Effect>, b: seq<Effect>, c: nat, sub: nat)
    ensures Asked(a + b, c, sub) <==> Asked(a, c, sub) || Asked(b, c, sub)
  {
    if i :| 0 <= i < |a| && AsksFor(a[i], c, sub) { assert AsksFor((a + b)[i], c, sub); }
    if i :| 0 <= i < |b| && AsksFor(b[i], c, sub) { assert AsksFor((a + b)[|a| + i], c, sub); }
  }

  /** Row c gained exactly the bits that were asked for, and no counter moved. */
  ghost predicate MovedBits(s: State, r: State, sent: seq<Effect>, c: nat) {
    && r.effects == s.effects + sent && r.reqCount == s.reqCount
    && c < |s.req| == |r.req| && |r.req[c]| == |s.req[c]|
    && (forall sub :: 0 <= sub < |s.req[c]| ==> (r.req[c][sub] <==> s.req[c][sub] || Asked(sent, c, sub)))
    && (Flagged(s, c) ==> Flagged(r, c) && r.req[c] == s.req[c])
  }

  /** Every sub-block of c that some peer has in flight is marked as requested. */
  ghost predicate Flagged(s: State, c: nat)
    requires c < |s.req|
  {
    forall q, sub :: 0 <= q < |s.peers| && 0 <= sub < |s.req[c]| && Carries(s.peers[q], c, sub) ==> s.req[c][sub]
  }

  lemma MovedBitsCompose(s: State, m: State, r: State, sent1: seq<Effect>, sent2: seq<Effect>, c: nat)
    requires MovedBits(s, m, sent1, c) && MovedBits(m, r, sent2, c)
    ensures MovedBits(s, r, sent1 + sent2, c)
  {
    forall sub | 0 <= sub < |s.req[c]| ensures r.req[c][sub] <==> s.req[c][sub] || Asked(sent1 + sent2, c, sub) {
      AskedConcat(sent1, sent2, c, sub);
    }
  }

  lemma NothingAsked(s: State, r: State, c: nat)
    requires r.effects == s.effects && r.reqCount == s.reqCount && r.req == s.req && c < |s.req|
    requires |r.peers| == |s.peers|
    requires forall q, x :: 0 <= q < |s.peers| ==> Flying(r.peers[q], x) <= Flying(s.peers[q], x)
    ensures MovedBits(s, r, [], c)
  {
    assert s.effects + [] == s.effects;
  }

  lemma MoveOneFlagged(s: State, q: nat, p: nat, c0: nat, begin: nat, now: nat, c: nat)
    requires Wf(s) && p < |s.peers| && q < |s.peers| && p != q && c < |s.chunks| && Flagged(s, c)
    requires c0 in s.peers[q].inFlight && begin in s.peers[q].inFlight[c0]
    ensures var r := MoveOne(s, q, p, c0, begin, now); Flagged(r, c) && r.req[c] == s.req[c]
  {
    var r := MoveOne(s, q, p, c0, begin, now);
    assert FlightsInRange(s.subBlocks, |s.chunks|, s.peers[q].inFlight);
    if c == c0 { assert Carries(s.peers[q], c, SubOf(begin)); }
    forall k, sub | 0 <= k < |r.peers| && 0 <= sub < |r.req[c]| && Carries(r.peers[k], c, sub) ensures r.req[c][sub] {
      assert Carried(r.peers, c, sub);
      MoveCarries(s, q, p, c0, begin, now, c, sub);
    }
  }

  lemma MoveOneBits(s: State, q: nat, p: nat, c0: nat, begin: nat, now: nat, c: nat) returns (sent: seq<Effect>)
    requires Wf(s) && p < |s.peers| && q < |s.peers| && p != q && c < |s.chunks|
    requires c0 in s.peers[q].inFlight && begin in s.peers[q].inFlight[c0]
    ensures MovedBits(s, MoveOne(s, q, p, c0, begin, now), sent, c)
  {
    var request := Request(s.peers[p].slotId, c0, begin);
    sent := (if s.canCancel then [Cancel(s.peers[q].slotId, c0, begin)] else []) + [request];
    assert FlightsInRange(s.subBlocks, |s.chunks|, s.peers[q].inFlight);
    assert begin == BeginOf(SubOf(begin)) && sent[|sent| - 1] == request;
    var r := MoveOne(s, q, p, c0, begin, now);
    if Flagged(s, c) { MoveOneFlagged(s, q, p, c0, begin, now, c); }
    forall sub | 0 <= sub < |s.req[c]| ensures r.req[c][sub] <==> s.req[c][sub] || Asked(sent, c, sub) {
      if c == c0 && sub == SubOf(begin) { assert AsksFor(sent[|sent| - 1], c, sub); }
    }
  }

  lemma DropDoneBits(s: State, q: nat, c0: nat, begin: nat, c: nat)
    requires Wf(s) && q < |s.peers| && c0 in s.peers[q].inFlight && c < |s.chunks|
    ensures MovedBits(s, DropDone(s, q, c0, begin), [], c)
  {
    NothingAsked(s, DropDone(s, q, c0, begin), c);
  }

  /** The source at q: skipped, relieved of a finished sub-block, or the one that yields. */
  lemma ScanStepBits(s: State, p: nat, c0: nat, q: nat, now: nat, c: nat)
    returns (s1: State, sent: seq<Effect>, moved: bool)
    requires Wf(s) && p < |s.peers| && q < |s.peers| && c0 < |s.chunks| && c < |s.chunks|
    ensures Wf(s1) && |s1.peers| == |s.peers| && |s1.chunks| == |s.chunks| && MovedBits(s, s1, sent, c)
    ensures ScanSources(s, p, c0, q, now) == if moved then Scan(s1, true) else ScanSources(s1, p, c0, q + 1, now)
  {
    s1, sent, moved := s, [], false;
    NothingAsked(s, s, c);
    if CanYield(s, p, q, c0) {
      var begin := MinOf(Flying(s.peers[q], c0));
      assert FlightsInRange(s.subBlocks, |s.chunks|, s.peers[q].inFlight);
      if s.done[c0][SubOf(begin)] {
        s1 := DropDone(s, q, c0, begin);
        DropDoneBits(s, q, c0, begin, c);
      } else {
        s1, moved := MoveOne(s, q, p, c0, begin, now), true;
        sent := MoveOneBits(s, q, p, c0, begin, now, c);
      }
    }
  }

  lemma {:induction false} ScanSourcesBits(s: State, p: nat, c0: nat, q: nat, now: nat, c: nat)
    returns (r: Scan, sent: seq<Effect>)
    requires Wf(s) && p < |s.peers| && c0 < |s.chunks| && q <= |s.peers| && c < |s.chunks|
    ensures r == ScanSources(s, p, c0, q, now) && |r.s.chunks| == |s.chunks| && MovedBits(s, r.s, sent, c)
    decreases |s.peers| - q
  {
    if q == |s.peers| {
      r, sent := Scan(s, false), [];
      NothingAsked(s, s, c);
    } else {
      var s1, head, moved := ScanStepBits(s, p, c0, q, now, c);
      r, sent := Scan(s1, true), head;
      if !moved {
        var tail;
        r, tail := ScanSourcesBits(s1, p, c0, q + 1, now, c);
        MovedBitsCompose(s, s1, r.s, head, tail, c);
        sent := head + tail;
      }
    }
  }

  lemma {:induction false} ScanChunksBits(s: State, p: nat, k: nat, now: nat, c: nat)
    returns (r: Scan, sent: seq<Effect>)
    requires Wf(s) && p < |s.peers| && k <= |s.active| && c < |s.chunks|
    ensures r == ScanChunks(s, p, k, now) && |r.s.chunks| == |s.chunks| && MovedBits(s, r.s, sent, c)
    decreases |s.active| - k
  {
    if k == |s.active| || s.peers[p].pending >= s.peers[p].cap {
      r, sent := Scan(s, false), [];
      NothingAsked(s, s, c);
    } else if !Advertises(s.peers[p], s.active[k]) || s.chunks[s.active[k]] == Complete {
      r, sent := ScanChunksBits(s, p, k + 1, now, c);
    } else {
      r, sent := ScanSourcesBits(s, p, s.active[k], 0, now, c);
      if !r.moved {
        var r2, tail := ScanChunksBits(r.s, p, k + 1, now, c);
        MovedBitsCompose(s, r.s, r2.s, sent, tail, c);
        r, sent := r2, sent + tail;
      }
    }
  }

  lemma {:induction false} MoveLoopBits(s: State, p: nat, now: nat, left: nat, c: nat)
    returns (r: State, sent: seq<Effect>)
    requires Wf(s) && p < |s.peers| && c < |s.chunks|
    ensures r == MoveLoop(s, p, now, left) && |r.chunks| == |s.chunks| && MovedBits(s, r, sent, c)
    decreases left, 1
  {
    if s.peers[p].pending >= s.peers[p].cap || left == 0 {
      r, sent := s, [];
      NothingAsked(s, s, c);
    } else {
      var scan, head := ScanChunksBits(s, p, 0, now, c);
      MoveLoopNext(s, p, now, left, scan);
      r, sent := scan.s, head;
      if scan.moved { r, sent := MoveLoopRestBits(s, scan.s, p, now, left, c, head); }
    }
  }

  lemma {:induction false} MoveLoopRestBits(s: State, m: State, p: nat, now: nat, left: nat, c: nat, head: seq<Effect>)
    returns (r: State, sent: seq<Effect>)
    requires Wf(m) && p < |m.peers| && c < |m.chunks| && left > 0 && MovedBits(s, m, head, c)
    ensures r == MoveLoop(m, p, now, left - 1) && |r.chunks| == |m.chunks| && MovedBits(s, r, sent, c)
    decreases left, 0
  {
    var tail;
    r, tail := MoveLoopBits(m, p, now, left - 1, c);
    MovedBitsCompose(s, m, r, head, tail, c);
    sent := head + tail;
  }

  lemma RebalanceBits(s: State, p: nat, now: nat, maxMoves: nat, c: nat) returns (r: State, sent: seq<Effect>)
    requires Wf(s) && p < |s.peers| && c < |s.chunks|
    ensures r == Rebalance(s, p, now, maxMoves) && |r.chunks| == |s.chunks| && MovedBits(s, r, sent, c)
  {
    if IsFullSource(s.peers[p], |s.chunks|) {
      r, sent := s, [];
      NothingAsked(s, s, c);
    } else {
      r, sent := MoveLoopBits(s, p, now, maxMoves, c);
    }
  }

  lemma {:induction false} RebalanceFromBits(s: State, p: nat, now: nat, c: nat) returns (r: State, sent: seq<Effect>)
    requires Wf(s) && p <= |s.peers| && c < |s.chunks|
    ensures r == RebalanceFrom(s, p, now) && |r.chunks| == |s.chunks| && MovedBits(s, r, sent, c)
    decreases |s.peers| - p
  {
    r, sent := s, [];
    NothingAsked(s, s, c);
    if p < |s.peers| {
      var s1, head := RebalanceBits(s, p, now, 4, c);
      var tail;
      r, tail := RebalanceFromBits(s1, p + 1, now, c);
      MovedBitsCompose(s, s1, r, head, tail, c);
      sent := head + tail;
    }
  }

  /** Nothing asked for between s and r had a clear bit in s. */
  ghost predicate NoClearBitAsked(s: State, r: State, c: nat)
    requires c < |s.req|
  {
    && s.effects <= r.effects
    && forall sub :: 0 <= sub < |s.req[c]| && Asked(Sent(s, r), c, sub) ==> s.req[c][sub]
  }

  /** From an exact counter, marking without counting keeps it exact exactly if it marks nothing new. */
  lemma MovesKeepExactIff(s: State, r: State, sent: seq<Effect>, c: nat)
    requires MovedBits(s, r, sent, c) && c < |s.reqCount| && CountExact(s, c)
    ensures CountExact(r, c) <==> NoClearBitAsked(s, r, c)
  {
    assert Sent(s, r) == sent;
    CountTrueStrict(s.req[c], r.req[c]);
    if NoClearBitAsked(s, r, c) {
      assert forall sub :: 0 <= sub < |s.req[c]| ==> r.req[c][sub] == s.req[c][sub];
    } else {
      var sub :| 0 <= sub < |s.req[c]| && Asked(sent, c, sub) && !s.req[c][sub];
      assert r.req[c][sub] != s.req[c][sub];
    }
  }

  /** One move, from an exact counter: exact afterwards exactly if the bit was set. */
  lemma MoveOneCounts(s: State, q: nat, p: nat, c: nat, begin: nat, now: nat)
    requires Wf(s) && p < |s.peers| && q < |s.peers| && p != q && c < |s.chunks| && CountExact(s, c)
    requires c in s.peers[q].inFlight && begin in s.peers[q].inFlight[c]
    ensures SubOf(begin) < |s.req[c]|
    ensures CountExact(MoveOne(s, q, p, c, begin, now), c) <==> s.req[c][SubOf(begin)]
  {
    assert FlightsInRange(s.subBlocks, |s.chunks|, s.peers[q].inFlight);
    CountTrueUpdate(s.req[c], SubOf(begin), true);
  }

  // ---------------------------------------------------------------- scheduling counts what it marks

  /** The counter moved by as much as the number of set bits. */
  ghost predicate CountsAsMarked(s: State, r: State, c: nat) {
    && c < |s.req| == |r.req| && c < |s.reqCount| == |r.reqCount|
    && r.reqCount[c] + CountTrue(s.req[c]) == s.reqCount[c] + CountTrue(r.req[c])
  }

  lemma {:induction false} IssueCounts(s: State, p: nat, c0: nat, sub: nat, now: nat, cap: nat, c: nat)
    requires Wf(s) && p < |s.peers| && c0 < |s.chunks| && c < |s.chunks|
    ensures CountsAsMarked(s, IssueFrom(s, p, c0, sub, now, cap), c)
    decreases Total(s, c0) - sub
  {
    if sub < Total(s, c0) && s.peers[p].pending < cap {
      if s.req[c0][sub] {
        IssueCounts(s, p, c0, sub + 1, now, cap, c);
      } else {
        CountTrueUpdate(s.req[c0], sub, true);
        IssueCounts(IssueOne(s, p, c0, sub, now), p, c0, sub + 1, now, cap, c);
      }
    }
  }

  lemma TryChunkCounts(s: State, p: nat, c0: nat, now: nat, cap: nat, c: nat)
    requires Wf(s) && p < |s.peers| && c < |s.chunks|
    ensures CountsAsMarked(s, TryChunk(s, p, c0, now, cap), c)
  {
    if CanIssue(s, p, c0) { IssueCounts(s.(chunks := s.chunks[c0 := Downloading]), p, c0, 0, now, cap, c); }
  }

  lemma {:induction false} ListCounts(s: State, p: nat, list: seq<(nat, nat)>, k: nat, now: nat, cap: nat, c: nat)
    requires Wf(s) && p < |s.peers| && k <= |list| && c < |s.chunks|
    ensures CountsAsMarked(s, ScheduleList(s, p, list, k, now, cap), c)
    decreases |list| - k
  {
    if k < |list| && s.peers[p].pending < cap {
      var s1 := TryChunk(s, p, list[k].1, now, cap);
      TryChunkCounts(s, p, list[k].1, now, cap, c);
      ListCounts(s1, p, list, k + 1, now, cap, c);
    }
  }

  lemma ScheduleCounts(s: State, p: nat, now: nat, c: nat)
    requires Wf(s) && p < |s.peers| && c < |s.chunks|
    ensures CountsAsMarked(s, ScheduleForPeer(s, p, now), c)
  {
    if s.peers[p].pending < EffectiveCap(s, p) { ListCounts(s, p, RarestFirst(s, p), 0, now, EffectiveCap(s, p), c); }
  }

  /** By how much the marks are ahead of the counter. */
  ghost predicate GapIs(s: State, c: nat, gap: int) {
    c < |s.req| && c < |s.reqCount| && CountTrue(s.req[c]) - s.reqCount[c] == gap
  }

  lemma ScheduleKeepsGap(s: State, p: nat, now: nat, c: nat, gap: int)
    requires Wf(s) && p < |s.peers| && c < |s.chunks| && GapIs(s, c, gap)
    ensures var r := ScheduleForPeer(s, p, now); c < |r.chunks| && GapIs(r, c, gap)
  {
    ScheduleCounts(s, p, now, c);
  }

  lemma {:induction false} ScheduleAllKeepsGap(s: State, p: nat, now: nat, c: nat, gap: int)
    requires Wf(s) && p <= |s.peers| && c < |s.chunks| && GapIs(s, c, gap)
    ensures GapIs(ScheduleAllFrom(s, p, now), c, gap)
    decreases |s.peers| - p
  {
    if p < |s.peers| {
      ScheduleKeepsGap(s, p, now, c, gap);
      ScheduleAllKeepsGap(ScheduleForPeer(s, p, now), p + 1, now, c, gap);
    }
  }

  /** After the rebalancing of a tick, the rest of it counts what it marks. */
  lemma TickCounts(s: State, now: nat, c: nat)
    requires Inv(s) && s.phase != Done && c < |s.chunks|
    ensures CountsAsMarked(RebalanceFrom(s, 0, now), Tick(s, now), c)
  {
    var s1 := RebalanceFrom(s, 0, now);
    RebalanceFromKeeps(s, 0, now);
    var s2 := ScheduleAllFrom(s1, 0, now);
    ScheduleAllKeepsGap(s1, 0, now, c, CountTrue(s1.req[c]) - s1.reqCount[c]);
    ScheduleAllFromKeeps(s1, 0, now);
    if s2.phase == Endgame {
      EndgameOrderUnfinished(s2);
      EndgameListLaunches(s2, EndgameOrder(s2), 0, 0, now);
    }
  }

  // ---------------------------------------------------------------- the other handlers

  /** A timeout uncounts what it unmarks. */
  lemma TimeoutCounts(s: State, c0: nat, begin: nat, c: nat)
    requires Wf(s) && c < |s.chunks| && CountExact(s, c)
    ensures CountExact(OnTimeout(s, c0, begin), c)
  {
    if c0 == c && SubOf(begin) < Total(s, c) {
      CountTrueUpdate(s.req[c], SubOf(begin), false);
    }
  }

  lemma RemovalCounts(s: State, p: nat, c: nat)
    requires Wf(s) && p < |s.peers| && c < |s.chunks| && CountExact(s, c)
    ensures CountExact(WithoutPeer(s, p), c)
  {
    var m := s.peers[p].inFlight;
    if c in m { CountTrueMonotone(ClearBits(s.req[c], m[c]), s.req[c]); }
  }

  lemma CancelFromCounts(s: State, c0: nat, winner: nat, p: nat)
    requires Wf(s) && p <= |s.peers|
    ensures CancelFrom(s, c0, winner, p).req == s.req && CancelFrom(s, c0, winner, p).reqCount == s.reqCount
    decreases |s.peers| - p
  {
    if p < |s.peers| { CancelFromCounts(CancelAt(s, c0, winner, p), c0, winner, p + 1); }
  }

  lemma {:induction false} CompleteFromCounts(s: State, msgs: seq<Completion>, k: nat, c: nat)
    requires Wf(s) && k <= |msgs| && c < |s.chunks|
    requires forall i :: 0 <= i < |msgs| ==> msgs[i].chunk < |s.chunks|
    ensures CompleteFrom(s, msgs, k).req == s.req
    ensures CompleteFrom(s, msgs, k).reqCount[c] == if c in Named(msgs, k) then 0 else s.reqCount[c]
    decreases |msgs| - k
  {
    if k < |msgs| {
      CancelFromCounts(Finished(s, msgs[k].chunk), msgs[k].chunk, msgs[k].winner, 0);
      CompleteFromCounts(CompleteOne(s, msgs[k]), msgs, k + 1, c);
    }
  }

  /** A completion forgets the count and keeps the bits. */
  lemma CompletionCounts(s: State, msg: Completion)
    requires Wf(s) && msg.chunk < |s.chunks|
    ensures CountExact(CompleteOne(s, msg), msg.chunk) <==>
            forall i :: 0 <= i < |s.req[msg.chunk]| ==> !s.req[msg.chunk][i]
  {
    CancelFromCounts(Finished(s, msg.chunk), msg.chunk, msg.winner, 0);
    NoBitIff(s.req[msg.chunk]);
  }

  lemma {:induction false} MarkFromCounts(s: State, bits: seq<bool>, k: nat, c: nat)
    requires Wf(s) && c < |s.chunks|
    ensures var r := MarkFrom(s, bits, k);
            && r.req == s.req
            && (r.chunks[c] == Complete <==> s.chunks[c] == Complete || (k <= c < |bits| && bits[c]))
            && r.reqCount[c] == if s.chunks[c] != Complete && k <= c < |bits| && bits[c] then 0 else s.reqCount[c]
    decreases |bits| - k
  {
    if k < |bits| && k < |s.chunks| { MarkFromCounts(if bits[k] then MarkOne(s, k) else s, bits, k + 1, c); }
  }

  lemma NoBitIff(bits: seq<bool>)
    ensures CountTrue(bits) == 0 <==> forall i :: 0 <= i < |bits| ==> !bits[i]
  {
    var none := seq(|bits|, _ => false);
    CountTrueZero(none);
    CountTrueStrict(none, bits);
    assert none == bits <==> forall i :: 0 <= i < |bits| ==> !bits[i];
  }

  // ---------------------------------------------------------------- every event

  /** What an event leaves behind once its rebalancing is done; s, if it does none. */
  ghost function Rebalanced(s: State, e: Event): State
    requires Wf(s) && Enabled(s, e)
  {
    match e
    case Bitfield(_, _, _) => Apply(s, e)
    case Have(_, _, _) => Apply(s, e)
    case Ticked(now) => if s.phase == Done then s else RebalanceFrom(s, 0, now)
    case _ => s
  }

  lemma InterestBits(s: State, s1: State, slot: nat, p: nat, now: nat, maxMoves: nat, c: nat)
    returns (r: State, sent: seq<Effect>)
    requires Wf(s1) && s1.effects == s.effects && s1.req == s.req && s1.reqCount == s.reqCount
    requires |s1.peers| == |s.peers| && forall q :: 0 <= q < |s.peers| ==> s1.peers[q].inFlight == s.peers[q].inFlight
    requires p < |s1.peers| && c < |s1.chunks|
    ensures r == Rebalance(CheckInterest(s1, slot), p, now, maxMoves) && MovedBits(s, r, sent, c)
  {
    var s2 := CheckInterest(s1, slot);
    var head := if s1.canDecline && !WantsPeer(s1, slot) then [NotInterested(slot)] else [];
    assert MovedBits(s, s2, head, c) by { assert s.effects + [] == s.effects; }
    var tail;
    r, tail := RebalanceBits(s2, p, now, maxMoves, c);
    MovedBitsCompose(s, s2, r, head, tail, c);
    sent := head + tail;
  }

  lemma BitfieldBits(s: State, slot: nat, bits: seq<bool>, now: nat, c: nat) returns (r: State, sent: seq<Effect>)
    requires Wf(s) && c < |s.chunks|
    ensures r == OnBitfield(s, slot, bits, now) && MovedBits(s, r, sent, c)
  {
    match FindSlot(s.peers, slot)
    case None =>
      r, sent := s, [];
      NothingAsked(s, s, c);
    case Some(p) =>
      r, sent := InterestBits(s, NoteBitfield(s, p, bits), slot, p, now, 16, c);
  }

  lemma HaveBits(s: State, slot: nat, h: nat, now: nat, c: nat) returns (r: State, sent: seq<Effect>)
    requires Wf(s) && c < |s.chunks|
    ensures r == OnHave(s, slot, h, now) && MovedBits(s, r, sent, c)
  {
    var found := FindSlot(s.peers, slot);
    if found.Some? && h < |s.peers[found.value].bitfield| {
      r, sent := InterestBits(s, NoteHave(s, found.value, h), slot, found.value, now, 8, c);
    } else {
      r, sent := s, [];
      NothingAsked(s, s, c);
    }
  }

  /** BITFIELD and HAVE end in rebalancing. */
  lemma AdvertBits(s: State, e: Event, c: nat) returns (sent: seq<Effect>)
    requires Inv(s) && c < |s.chunks| && (e.Bitfield? || e.Have?)
    ensures MovedBits(s, Apply(s, e), sent, c)
  {
    var r;
    if e.Bitfield? {
      r, sent := BitfieldBits(s, e.slot, e.bits, e.now, c);
    } else {
      r, sent := HaveBits(s, e.slot, e.chunk, e.now, c);
    }
  }

  lemma SurvivesTick(s: State, now: nat, c: nat)
    requires Inv(s) && c < |s.chunks| && CountExact(s, c) && s.phase != Done
    ensures CountsAsMarked(RebalanceFrom(s, 0, now), Tick(s, now), c)
    ensures CountExact(Tick(s, now), c) <==> NoClearBitAsked(s, RebalanceFrom(s, 0, now), c)
  {
    var m, sent := RebalanceFromBits(s, 0, now, c);
    MovesKeepExactIff(s, m, sent, c);
    TickCounts(s, now, c);
  }

  lemma SurvivesPiece(s: State, slot: nat, h: nat, begin: nat, now: nat, c: nat)
    requires Inv(s) && c < |s.chunks| && CountExact(s, c)
    ensures CountsAsMarked(s, OnPiece(s, slot, h, begin, now), c)
  {
    match FindSlot(s.peers, slot)
    case None =>
    case Some(p) =>
      if s.peers[p].pending > 0 {
        LandedKeeps(s, p, h, begin);
        var s1 := Landed(s, p, h, begin);
        if s1.phase != Done { ScheduleCounts(s1, p, now, c); }
      }
  }

  lemma NothingRebalanced(s: State, c: nat)
    requires c < |s.req|
    ensures NoClearBitAsked(s, s, c)
  {
    assert Sent(s, s) == [];
  }

  lemma NetEventSurvives(s: State, e: Event, c: nat)
    requires Inv(s) && Enabled(s, e) && NetEvent(e) && c < |s.chunks| && CountExact(s, c)
    ensures c < |Apply(s, e).req| && c < |Apply(s, e).reqCount|
    ensures CountExact(Apply(s, e), c) <==> NoClearBitAsked(s, Rebalanced(s, e), c)
  {
    NothingRebalanced(s, c);
    NetEventKeeps(s, e);
    if e.Bitfield? || e.Have? {
      var sent := AdvertBits(s, e, c);
      MovesKeepExactIff(s, Apply(s, e), sent, c);
    } else if e.Ticked? {
      if s.phase != Done { SurvivesTick(s, e.now, c); }
    } else if e.PieceArrived? {
      SurvivesPiece(s, e.slot, e.chunk, e.begin, e.now, c);
    } else if e.TimedOut? {
      TimeoutCounts(s, e.chunk, e.begin, c);
    } else if e.PeerRemoved? {
      var found := FindSlot(s.peers, e.slot);
      if found.Some? { RemovalCounts(s, found.value, c); }
    }
  }

  /** The counter of an unfinished chunk, exact before an event, is exact after it: if the chunk is
      still unfinished, exactly when the event's rebalancing asked for no sub-block whose bit was
      clear; if the event finished it, exactly when none of its bits was set. */
  lemma CounterSurvivesIff(s: State, e: Event, c: nat)
    requires Inv(s) && Enabled(s, e) && c < |s.chunks| && s.chunks[c] != Complete && CountExact(s, c)
    ensures c < |Apply(s, e).chunks| && c < |Apply(s, e).req| && c < |Apply(s, e).reqCount|
    ensures Apply(s, e).chunks[c] != Complete ==>
              (CountExact(Apply(s, e), c) <==> NoClearBitAsked(s, Rebalanced(s, e), c))
    ensures Apply(s, e).chunks[c] == Complete ==>
              (CountExact(Apply(s, e), c) <==> forall i :: 0 <= i < |s.req[c]| ==> !s.req[c][i])
  {
    NothingRebalanced(s, c);
    NoBitIff(s.req[c]);
    if NetEvent(e) {
      NetEventKeeps(s, e);
      NetEventSurvives(s, e, c);
    } else {
      OtherEventSurvives(s, e, c);
    }
  }

  lemma OtherEventSurvives(s: State, e: Event, c: nat)
    requires Inv(s) && Enabled(s, e) && !NetEvent(e) && c < |s.chunks| && s.chunks[c] != Complete && CountExact(s, c)
    ensures c < |Apply(s, e).chunks| && c < |Apply(s, e).req| && c < |Apply(s, e).reqCount|
    ensures Apply(s, e).chunks[c] != Complete ==> CountExact(Apply(s, e), c)
    ensures Apply(s, e).chunks[c] == Complete ==> (CountExact(Apply(s, e), c) <==> CountTrue(s.req[c]) == 0)
  {
    if e.ChunkSizes? {
      SizesCount(s, e.sizes, c);
    } else if e.Completions? {
      CompletionsCount(s, e.msgs, c);
    } else if e.Failed? {
      CountTrueZero(Falses(s.req[e.chunk]));
    } else if e.Restored? {
      MarkFromCounts(s, e.bits, 0, c);
    }
  }

  lemma SizesCount(s: State, sizes: seq<nat>, c: nat)
    requires Wf(s) && s.subBlocks == [] && c < |s.chunks| && CountExact(s, c)
    ensures CountExact(SetChunkSizes(s, sizes), c)
  {
    assert s.req[c] == [];
    CountTrueZero(SetChunkSizes(s, sizes).req[c]);
  }

  lemma CompletionsCount(s: State, msgs: seq<Completion>, c: nat)
    requires Inv(s) && c < |s.chunks| && s.chunks[c] != Complete && CountExact(s, c)
    requires forall i :: 0 <= i < |msgs| ==> msgs[i].chunk < |s.chunks|
    ensures var r := ProcessCompletions(s, msgs);
            && c < |r.chunks| && (r.chunks[c] != Complete ==> CountExact(r, c))
            && (r.chunks[c] == Complete ==> (CountExact(r, c) <==> CountTrue(s.req[c]) == 0))
  {
    ProcessCompletionsKeeps(s, msgs);
    CompleteFromCounts(s, msgs, 0, c);
  }

  /** Before the event: if every sub-block of c that some peer has in flight is marked as requested, the
      counter survives whatever does not finish the chunk. */
  lemma CounterSurvivesWhenFlagged(s: State, e: Event, c: nat)
    requires Inv(s) && Enabled(s, e) && c < |s.chunks| && s.chunks[c] != Complete && CountExact(s, c) && Flagged(s, c)
    ensures c < |Apply(s, e).chunks| && c < |Apply(s, e).req| && c < |Apply(s, e).reqCount|
    ensures Apply(s, e).chunks[c] != Complete ==> CountExact(Apply(s, e), c)
  {
    CounterSurvivesIff(s, e, c);
    FlaggedRebalances(s, e, c);
  }

  lemma FlaggedRebalances(s: State, e: Event, c: nat)
    requires Inv(s) && Enabled(s, e) && c < |s.chunks| && Flagged(s, c)
    ensures NoClearBitAsked(s, Rebalanced(s, e), c)
  {
    NothingRebalanced(s, c);
    if e.Bitfield? || e.Have? {
      var sent := AdvertBits(s, e, c);
      FlaggedAsksNothingNew(s, Apply(s, e), sent, c);
    } else if e.Ticked? {
      var r, sent := RebalanceFromBits(s, 0, e.now, c);
      FlaggedAsksNothingNew(s, r, sent, c);
    }
  }

  lemma FlaggedAsksNothingNew(s: State, r: State, sent: seq<Effect>, c: nat)
    requires MovedBits(s, r, sent, c) && Flagged(s, c)
    ensures NoClearBitAsked(s, r, c)
  {
    assert Sent(s, r) == sent;
  }
}
