/** How long the sub-blocks in flight stay marked as requested, and with them the request counter
    exact. */
module SchedulerFlags {
  import opened SchedulerModel
  import opened SchedulerInvariant
  import opened SchedulerEvents
  import opened SchedulerCounters

  // ---------------------------------------------------------------- requests keep the flags

  /** Peer p takes off with a sub-block that is marked. */
  lemma LaunchFlagged(s: State, r: State, p: nat, c0: nat, sub: nat, c: nat)
    requires c < |s.req| == |r.req| && |r.req[c]| == |s.req[c]| && Flagged(s, c) && p < |s.peers|
    requires r.peers == s.peers[p := Launch(s.peers[p], c0, BeginOf(sub))]
    requires forall i :: 0 <= i < |s.req[c]| && s.req[c][i] ==> r.req[c][i]
    requires c0 == c && sub < |r.req[c]| ==> r.req[c][sub]
    ensures Flagged(r, c)
  {
    forall q, i | 0 <= q < |r.peers| && 0 <= i < |r.req[c]| && Carries(r.peers[q], c, i) ensures r.req[c][i] {
      if !Carries(s.peers[q], c, i) { assert BeginOf(i) == BeginOf(sub) && i == sub; }
    }
  }

  lemma IssueOneFlagged(s: State, p: nat, c0: nat, sub: nat, now: nat, c: nat)
    requires Wf(s) && p < |s.peers| && c0 < |s.chunks| && sub < Total(s, c0) && c < |s.chunks| && Flagged(s, c)
    ensures Flagged(IssueOne(s, p, c0, sub, now), c)
  {
    LaunchFlagged(s, IssueOne(s, p, c0, sub, now), p, c0, sub, c);
  }

  lemma {:induction false} IssueFlagged(s: State, p: nat, c0: nat, sub: nat, now: nat, cap: nat, c: nat)
    requires Wf(s) && p < |s.peers| && c0 < |s.chunks| && c < |s.chunks| && Flagged(s, c)
    ensures var r := IssueFrom(s, p, c0, sub, now, cap); c < |r.req| && |r.chunks| == |s.chunks| && Flagged(r, c)
    decreases Total(s, c0) - sub
  {
    if sub < Total(s, c0) && s.peers[p].pending < cap {
      if s.req[c0][sub] {
        IssueFlagged(s, p, c0, sub + 1, now, cap, c);
      } else {
        IssueOneFlagged(s, p, c0, sub, now, c);
        IssueFlagged(IssueOne(s, p, c0, sub, now), p, c0, sub + 1, now, cap, c);
      }
    }
  }

  lemma TryChunkFlagged(s: State, p: nat, c0: nat, now: nat, cap: nat, c: nat)
    requires Wf(s) && p < |s.peers| && c < |s.chunks| && Flagged(s, c)
    ensures var r := TryChunk(s, p, c0, now, cap); c < |r.req| && |r.chunks| == |s.chunks| && Flagged(r, c)
  {
    if CanIssue(s, p, c0) { IssueFlagged(s.(chunks := s.chunks[c0 := Downloading]), p, c0, 0, now, cap, c); }
  }

  lemma {:induction false} ListFlagged(s: State, p: nat, list: seq<(nat, nat)>, k: nat, now: nat, cap: nat, c: nat)
    requires Wf(s) && p < |s.peers| && k <= |list| && c < |s.chunks| && Flagged(s, c)
    ensures var r := ScheduleList(s, p, list, k, now, cap); c < |r.req| && |r.chunks| == |s.chunks| && Flagged(r, c)
    decreases |list| - k
  {
    if k < |list| && s.peers[p].pending < cap {
      TryChunkFlagged(s, p, list[k].1, now, cap, c);
      ListFlagged(TryChunk(s, p, list[k].1, now, cap), p, list, k + 1, now, cap, c);
    }
  }

  lemma ScheduleFlagged(s: State, p: nat, now: nat, c: nat)
    requires Wf(s) && p < |s.peers| && c < |s.chunks| && Flagged(s, c)
    ensures var r := ScheduleForPeer(s, p, now); c < |r.req| && |r.chunks| == |s.chunks| && Flagged(r, c)
  {
    if s.peers[p].pending < EffectiveCap(s, p) {
      ListFlagged(s, p, RarestFirst(s, p), 0, now, EffectiveCap(s, p), c);
    }
  }

  lemma {:induction false} ScheduleAllFlagged(s: State, p: nat, now: nat, c: nat)
    requires Wf(s) && p <= |s.peers| && c < |s.chunks| && Flagged(s, c)
    ensures var r := ScheduleAllFrom(s, p, now); c < |r.req| && |r.chunks| == |s.chunks| && Flagged(r, c)
    decreases |s.peers| - p
  {
    if p < |s.peers| {
      ScheduleFlagged(s, p, now, c);
      ScheduleAllFlagged(ScheduleForPeer(s, p, now), p + 1, now, c);
    }
  }

  /** Redundant requests go out for marked sub-blocks only. */
  lemma {:induction false} SendRedundantFlagged(s: State, c0: nat, sub: nat, slots: seq<(nat, nat)>, k: nat, c: nat)
    requires Wf(s) && c0 < |s.chunks| && sub < Total(s, c0) && k <= |slots| && s.req[c0][sub]
    requires c < |s.chunks| && Flagged(s, c)
    ensures var r := SendRedundant(s, c0, sub, slots, k);
            r.req == s.req && r.chunks == s.chunks && r.subBlocks == s.subBlocks && Flagged(r, c)
    decreases |slots| - k
  {
    if k < |slots| {
      var s1 := SendTo(s, slots[k].1, c0, sub);
      var found := FindSlot(s.peers, slots[k].1);
      if found.Some? { LaunchFlagged(s, s1, found.value, c0, sub, c); }
      SendRedundantFlagged(s1, c0, sub, slots, k + 1, c);
    }
  }

  lemma {:induction false} RescueFlagged(s: State, c0: nat, primary: nat, hunger: nat, sub: nat, now: nat,
                                         hungry: bool, c: nat)
    requires Wf(s) && c0 < |s.chunks| && c < |s.chunks| && Flagged(s, c)
    ensures var r := RescueFrom(s, c0, primary, hunger, sub, now, hungry); r.s.req == s.req && Flagged(r.s, c)
    decreases Total(s, c0) - sub
  {
    if sub < Total(s, c0) {
      if Overdue(s, c0, sub, now, hunger) {
        var slots := RedundantPeers(s.peers, c0, primary);
        SendRedundantFlagged(s, c0, sub, slots, 0, c);
        RescueFlagged(SendRedundant(s, c0, sub, slots, 0), c0, primary, hunger, sub + 1, now, true, c);
      } else {
        RescueFlagged(s, c0, primary, hunger, sub + 1, now, hungry, c);
      }
    }
  }

  lemma {:induction false} EndgameFlagged(s: State, list: seq<(nat, nat)>, k: nat, processed: nat, now: nat, c: nat)
    requires Wf(s) && k <= |list| && ChunksWithin(list, |s.chunks|) && c < |s.chunks| && Flagged(s, c)
    ensures var r := EndgameList(s, list, k, processed, now); r.req == s.req && Flagged(r, c)
    decreases |list| - k
  {
    if k < |list| && processed < MAX_ENDGAME_CHUNKS {
      var c0 := list[k].1;
      if Total(s, c0) == 0 {
        EndgameFlagged(s, list, k + 1, processed, now, c);
      } else {
        var primary := Primary(s.peers, c0);
        var hunger := HungerMs(s.peers, primary);
        RescueFlagged(s, c0, primary, hunger, 0, now, false, c);
        var r := RescueFrom(s, c0, primary, hunger, 0, now, false);
        EndgameFlagged(r.s, list, k + 1, if r.hungry then processed + 1 else processed, now, c);
      }
    }
  }

  lemma TickFlagged(s: State, now: nat, c: nat)
    requires Wf(s) && c < |s.chunks| && Flagged(s, c)
    ensures c < |Tick(s, now).req| && Flagged(Tick(s, now), c)
  {
    if s.phase != Done {
      var s1, sent := RebalanceFromBits(s, 0, now, c);
      ScheduleAllFlagged(s1, 0, now, c);
      var s2 := ScheduleAllFrom(s1, 0, now);
      if s2.phase == Endgame { EndgameFlagged(s2, EndgameOrder(s2), 0, 0, now, c); }
    }
  }

  lemma PieceFlagged(s: State, slot: nat, h: nat, begin: nat, now: nat, c: nat)
    requires Wf(s) && c < |s.chunks| && Flagged(s, c)
    ensures var r := OnPiece(s, slot, h, begin, now); c < |r.req| && Flagged(r, c)
  {
    match FindSlot(s.peers, slot)
    case None =>
    case Some(p) =>
      if s.peers[p].pending > 0 {
        var s1 := Landed(s, p, h, begin);
        FewerFlights(s, s1, c);
        if s1.phase != Done { ScheduleFlagged(s1, p, now, c); }
      }
  }

  /** Giving flights up breaks nothing. */
  lemma FewerFlights(s: State, r: State, c: nat)
    requires c < |s.req| && r.req == s.req && Flagged(s, c) && |r.peers| == |s.peers|
    requires forall q :: 0 <= q < |s.peers| ==> Flying(r.peers[q], c) <= Flying(s.peers[q], c)
    ensures Flagged(r, c)
  {
    forall q, i | 0 <= q < |r.peers| && 0 <= i < |r.req[c]| && Carries(r.peers[q], c, i) ensures r.req[c][i] {
      assert Carries(s.peers[q], c, i);
    }
  }

  lemma {:induction false} CancelFlights(s: State, c0: nat, winner: nat, p: nat, c: nat)
    requires Wf(s) && p <= |s.peers|
    ensures var r := CancelFrom(s, c0, winner, p);
            |r.peers| == |s.peers| && forall q :: 0 <= q < |s.peers| ==> Flying(r.peers[q], c) <= Flying(s.peers[q], c)
    decreases |s.peers| - p
  {
    if p < |s.peers| { CancelFlights(CancelAt(s, c0, winner, p), c0, winner, p + 1, c); }
  }

  lemma {:induction false} CompletionFlights(s: State, msgs: seq<Completion>, k: nat, c: nat)
    requires Wf(s) && k <= |msgs| && forall i :: 0 <= i < |msgs| ==> msgs[i].chunk < |s.chunks|
    ensures var r := CompleteFrom(s, msgs, k);
            |r.peers| == |s.peers| && forall q :: 0 <= q < |s.peers| ==> Flying(r.peers[q], c) <= Flying(s.peers[q], c)
    decreases |msgs| - k
  {
    if k < |msgs| {
      CancelFlights(Finished(s, msgs[k].chunk), msgs[k].chunk, msgs[k].winner, 0, c);
      CompletionFlights(CompleteOne(s, msgs[k]), msgs, k + 1, c);
    }
  }

  lemma CompletionsFlagged(s: State, msgs: seq<Completion>, c: nat)
    requires Wf(s) && c < |s.chunks| && Flagged(s, c) && forall i :: 0 <= i < |msgs| ==> msgs[i].chunk < |s.chunks|
    ensures var r := ProcessCompletions(s, msgs); c < |r.req| && Flagged(r, c)
  {
    CompleteFromCounts(s, msgs, 0, c);
    CompletionFlights(s, msgs, 0, c);
    FewerFlights(s, CompleteFrom(s, msgs, 0), c);
  }

  // ---------------------------------------------------------------- three events that clear a flag

  /** Some peer other than p carries (c, sub). */
  ghost predicate CarriedBeside(peers: seq<PeerSlot>, p: nat, c: nat, sub: nat) {
    exists q :: 0 <= q < |peers| && q != p && Carries(peers[q], c, sub)
  }

  /** The peer at p carries a sub-block of c that another one carries too. */
  ghost predicate SharesFlight(s: State, p: nat, c: nat)
    requires Wf(s) && c < |s.chunks| && p < |s.peers|
  {
    exists sub :: 0 <= sub < Total(s, c) && Carries(s.peers[p], c, sub) && CarriedBeside(s.peers, p, c, sub)
  }

  /** The event unmarks a sub-block of c that is in flight and stays in flight: a timeout of it, a
      failed hash of c, or the loss of one of two peers that carry it. */
  ghost predicate Unflags(s: State, e: Event, c: nat)
    requires Wf(s) && c < |s.chunks|
  {
    match e
    case TimedOut(h, begin) =>
      h == c && s.chunks[c] != Complete && SubOf(begin) < Total(s, c) && Carried(s.peers, c, SubOf(begin))
    case Failed(h) => h == c && exists sub :: 0 <= sub < Total(s, c) && Carried(s.peers, c, sub)
    case PeerRemoved(slot) =>
      (match FindSlot(s.peers, slot)
       case None => false
       case Some(p) => SharesFlight(s, p, c))
    case _ => false
  }

  lemma TimeoutFlaggedIff(s: State, h: nat, begin: nat, c: nat)
    requires Wf(s) && c < |s.chunks| && Flagged(s, c)
    ensures var r := OnTimeout(s, h, begin); c < |r.req| && (Flagged(r, c) <==> !Unflags(s, TimedOut(h, begin), c))
  {
    var r := OnTimeout(s, h, begin);
    if Unflags(s, TimedOut(h, begin), c) {
      var q :| 0 <= q < |s.peers| && Carries(s.peers[q], c, SubOf(begin));
      assert Carries(r.peers[q], c, SubOf(begin)) && !r.req[c][SubOf(begin)];
    } else {
      forall q, i | 0 <= q < |r.peers| && 0 <= i < |r.req[c]| && Carries(r.peers[q], c, i) ensures r.req[c][i] {
        assert Carried(s.peers, c, i);
      }
    }
  }

  lemma FailureFlaggedIff(s: State, h: nat, c: nat)
    requires Wf(s) && c < |s.chunks| && h < |s.chunks| && Flagged(s, c)
    ensures var r := VerifyFailed(s, h); c < |r.req| && (Flagged(r, c) <==> !Unflags(s, Failed(h), c))
  {
    var r := VerifyFailed(s, h);
    if Unflags(s, Failed(h), c) {
      var sub :| 0 <= sub < Total(s, c) && Carried(s.peers, c, sub);
      var q :| 0 <= q < |s.peers| && Carries(s.peers[q], c, sub);
      assert Carries(r.peers[q], c, sub) && !r.req[c][sub];
    } else {
      forall q, i | 0 <= q < |r.peers| && 0 <= i < |r.req[c]| && Carries(r.peers[q], c, i) ensures r.req[c][i] {
        assert Carried(s.peers, c, i);
      }
    }
  }

  /** Dropping p's requests clears the bits of what it had in flight, and no others. */
  lemma RemovalRow(s: State, p: nat, c: nat)
    requires Wf(s) && c < |s.chunks| && p < |s.peers|
    ensures var r := WithoutPeer(s, p);
            && c < |r.req| && |r.req[c]| == |s.req[c]|
            && forall i :: 0 <= i < |s.req[c]| ==> (r.req[c][i] <==> s.req[c][i] && !Carries(s.peers[p], c, i))
  {
    assert FlightsInRange(s.subBlocks, |s.chunks|, s.peers[p].inFlight);
  }

  ghost predicate RowFlagged(peers: seq<PeerSlot>, row: seq<bool>, c: nat) {
    forall q, sub :: 0 <= q < |peers| && 0 <= sub < |row| && Carries(peers[q], c, sub) ==> row[sub]
  }

  /** Peer p leaves with its bits: one that another peer carries as well is clear now. */
  lemma SharedFlightUnflags(peers: seq<PeerSlot>, p: nat, after: seq<bool>, c: nat, sub: nat)
    requires p < |peers| && sub < |after| && Carries(peers[p], c, sub) && CarriedBeside(peers, p, c, sub) && !after[sub]
    ensures !RowFlagged(peers[..p] + peers[p + 1..], after, c)
  {
    var q :| 0 <= q < |peers| && q != p && Carries(peers[q], c, sub);
    assert Carries((peers[..p] + peers[p + 1..])[if q < p then q else q - 1], c, sub);
  }

  lemma OwnFlightsLeave(peers: seq<PeerSlot>, p: nat, row: seq<bool>, after: seq<bool>, c: nat)
    requires p < |peers| && |after| == |row| && RowFlagged(peers, row, c)
    requires forall i :: 0 <= i < |row| ==> (after[i] <==> row[i] && !Carries(peers[p], c, i))
    requires forall i :: 0 <= i < |row| && Carries(peers[p], c, i) ==> !CarriedBeside(peers, p, c, i)
    ensures RowFlagged(peers[..p] + peers[p + 1..], after, c)
  {
    var left := peers[..p] + peers[p + 1..];
    forall k, i | 0 <= k < |left| && 0 <= i < |after| && Carries(left[k], c, i) ensures after[i] {
      var q := if k < p then k else k + 1;
      assert left[k] == peers[q];
    }
  }

  lemma RemovalFlaggedIff(s: State, p: nat, c: nat)
    requires Wf(s) && c < |s.chunks| && p < |s.peers| && Flagged(s, c)
    ensures c < |WithoutPeer(s, p).req| && (Flagged(WithoutPeer(s, p), c) <==> !SharesFlight(s, p, c))
  {
    var r := WithoutPeer(s, p);
    RemovalRow(s, p, c);
    assert RowFlagged(s.peers, s.req[c], c);
    if SharesFlight(s, p, c) {
      var sub :| 0 <= sub < Total(s, c) && Carries(s.peers[p], c, sub) && CarriedBeside(s.peers, p, c, sub);
      SharedFlightUnflags(s.peers, p, r.req[c], c, sub);
    } else {
      OwnFlightsLeave(s.peers, p, s.req[c], r.req[c], c);
    }
    assert Flagged(r, c) == RowFlagged(r.peers, r.req[c], c);
  }

  lemma NoFlightsYet(s: State, sizes: seq<nat>, c: nat)
    requires Wf(s) && s.subBlocks == [] && c < |s.chunks|
    ensures c < |SetChunkSizes(s, sizes).req| && Flagged(SetChunkSizes(s, sizes), c)
  {
    forall q, i | 0 <= q < |s.peers| ensures !Carries(s.peers[q], c, i) {
      assert FlightsInRange(s.subBlocks, |s.chunks|, s.peers[q].inFlight);
    }
  }

  /** As long as everything of c in flight is marked: it stays so exactly if the event is none of the
      three. */
  lemma FlaggedSurvivesIff(s: State, e: Event, c: nat)
    requires Inv(s) && Enabled(s, e) && c < |s.chunks| && Flagged(s, c)
    ensures c < |Apply(s, e).req| && (Flagged(Apply(s, e), c) <==> !Unflags(s, e, c))
  {
    if e.TimedOut? {
      TimeoutFlaggedIff(s, e.chunk, e.begin, c);
    } else if e.Failed? {
      FailureFlaggedIff(s, e.chunk, c);
    } else if e.PeerRemoved? {
      var found := FindSlot(s.peers, e.slot);
      if found.Some? { RemovalFlaggedIff(s, found.value, c); }
    } else {
      OthersKeepFlags(s, e, c);
    }
  }

  lemma OthersKeepFlags(s: State, e: Event, c: nat)
    requires Inv(s) && Enabled(s, e) && c < |s.chunks| && Flagged(s, c)
    requires !e.TimedOut? && !e.Failed? && !e.PeerRemoved?
    ensures c < |Apply(s, e).req| && Flagged(Apply(s, e), c)
  {
    if e.Bitfield? || e.Have? {
      var sent := AdvertBits(s, e, c);
    } else if e.Ticked? {
      TickFlagged(s, e.now, c);
    } else if e.PieceArrived? {
      PieceFlagged(s, e.slot, e.chunk, e.begin, e.now, c);
    } else if e.Completions? {
      CompletionsFlagged(s, e.msgs, c);
    } else if e.ChunkSizes? {
      NoFlightsYet(s, e.sizes, c);
    } else if e.Restored? {
      MarkFromCounts(s, e.bits, 0, c);
      MarkExcess(s, e.bits, 0);
      FewerFlights(s, Apply(s, e), c);
    } else {
      SmallEventsKeepFlags(s, e, c);
    }
  }

  lemma SmallEventsKeepFlags(s: State, e: Event, c: nat)
    requires Inv(s) && Enabled(s, e) && c < |s.chunks| && Flagged(s, c)
    requires e.Shuffled? || e.CancelIssuerSet? || e.DeclineIssuerSet? || e.PeerAdded? || PeerUpdate(e)
    ensures c < |Apply(s, e).req| && Flagged(Apply(s, e), c)
  {
    if e.PeerAdded? {
      assert forall i :: !Carries(NewPeer(e.slot, e.speed, |s.availability|), c, i);
    } else if PeerUpdate(e) {
      UpdateKeepsFlights(s, e, c);
      FewerFlights(s, Apply(s, e), c);
    } else {
      FewerFlights(s, Apply(s, e), c);
    }
  }

  predicate PeerUpdate(e: Event) { e.PeerSpeed? || e.ChokeChange? || e.Tuned? }

  lemma UpdateKeepsFlights(s: State, e: Event, c: nat)
    requires Wf(s) && Enabled(s, e) && PeerUpdate(e)
    ensures var r := Apply(s, e);
            && r.req == s.req && |r.peers| == |s.peers|
            && forall q :: 0 <= q < |s.peers| ==> Flying(r.peers[q], c) == Flying(s.peers[q], c)
  {
  }

  // ---------------------------------------------------------------- whole runs

  /** No event of the run unmarks a flight of c, and c is unfinished after each. */
  ghost predicate CalmRun(s: State, events: seq<Event>, c: nat)
    requires Wf(s)
    decreases |events|
  {
    |events| == 0
    || (&& Enabled(s, events[0]) && c < |s.chunks| && !Unflags(s, events[0], c)
        && c < |Apply(s, events[0]).chunks| && Apply(s, events[0]).chunks[c] != Complete
        && CalmRun(Apply(s, events[0]), events[1..], c))
  }

  lemma {:induction false} CalmRunsCount(s: State, events: seq<Event>, r: State, c: nat)
    requires Inv(s) && Reaches(s, events, r) && CalmRun(s, events, c)
    requires c < |s.chunks| && s.chunks[c] != Complete && CountExact(s, c) && Flagged(s, c)
    ensures c < |r.req| && c < |r.reqCount| && CountExact(r, c) && Flagged(r, c)
    decreases |events|
  {
    if |events| > 0 {
      ApplyKeeps(s, events[0]);
      CounterSurvivesWhenFlagged(s, events[0], c);
      FlaggedSurvivesIff(s, events[0], c);
      CalmRunsCount(Apply(s, events[0]), events[1..], r, c);
    }
  }

  /** From the start of a scheduler: on every run without such an event that leaves the chunk
      unfinished, its request counter is the number of its requested sub-blocks. */
  lemma CounterExactOnCalmRuns(n: nat, localSpeed: nat, events: seq<Event>, r: State, c: nat)
    requires Reaches(Init(n, localSpeed), events, r) && CalmRun(Init(n, localSpeed), events, c) && c < n
    ensures c < |r.req| && c < |r.reqCount| && CountExact(r, c)
  {
    InitHolds(n, localSpeed);
    CalmRunsCount(Init(n, localSpeed), events, r, c);
  }
}
