/** The scheduler as an event-driven machine: safety over every run. */
module SchedulerEvents {
  import opened Counting
  import opened Sorting
  import opened SchedulerModel
  import opened SchedulerInvariant
  import opened SchedulerRuns

  datatype Event =
    | ChunkSizes(sizes: seq<nat>)
    | Shuffled(order: seq<nat>)
    | CancelIssuerSet
    | DeclineIssuerSet
    | Bitfield(slot: nat, bits: seq<bool>, now: nat)
    | Have(slot: nat, chunk: nat, now: nat)
    | PeerAdded(slot: nat, speed: nat)
    | PeerSpeed(slot: nat, speed: nat)
    | PeerRemoved(slot: nat)
    | ChokeChange(slot: nat, choking: bool)
    | Tuned(slot: nat, cap: nat, timeouts: nat, rttUs: nat)
    | PieceArrived(slot: nat, chunk: nat, begin: nat, now: nat)
    | TimedOut(chunk: nat, begin: nat)
    | Ticked(now: nat)
    | Completions(msgs: seq<Completion>)
    | Failed(chunk: nat)
    | Restored(bits: seq<bool>)

  /** What the scheduler's owner guarantees when it delivers an event. */
  ghost predicate Enabled(s: State, e: Event) {
    match e
    case ChunkSizes(_) => s.subBlocks == []                                // once, right after init
    case Shuffled(order) => multiset(order) == multiset(s.active)          // std::shuffle
    case PeerAdded(slot, _) => FindSlot(s.peers, slot).None?               // slot ids are never reused
    case Tuned(_, cap, _, _) => cap <= 128                                 // session window
    case Completions(msgs) => forall i :: 0 <= i < |msgs| ==> msgs[i].chunk < |s.chunks|
    case Failed(c) => c < |s.chunks|
    case _ => true
  }

  ghost function Apply(s: State, e: Event): (r: State)
    requires Wf(s) && Enabled(s, e)
    ensures Wf(r)
  {
    match e
    case ChunkSizes(sizes) => SetChunkSizes(s, sizes)
    case Shuffled(order) => ShuffleInRange(s, order); s.(active := order)
    case CancelIssuerSet => s.(canCancel := true)
    case DeclineIssuerSet => s.(canDecline := true)
    case Bitfield(slot, bits, now) => OnBitfield(s, slot, bits, now)
    case Have(slot, c, now) => OnHave(s, slot, c, now)
    case PeerAdded(slot, speed) => OnPeerAdded(s, slot, speed)
    case PeerSpeed(slot, speed) => OnPeerSpeed(s, slot, speed)
    case PeerRemoved(slot) => OnPeerRemoved(s, slot)
    case ChokeChange(slot, choking) => OnChokeChange(s, slot, choking)
    case Tuned(slot, cap, timeouts, rttUs) => OnTune(s, slot, cap, timeouts, rttUs)
    case PieceArrived(slot, c, begin, now) => OnPiece(s, slot, c, begin, now)
    case TimedOut(c, begin) => OnTimeout(s, c, begin)
    case Ticked(now) => Tick(s, now)
    case Completions(msgs) => ProcessCompletions(s, msgs)
    case Failed(c) => VerifyFailed(s, c)
    case Restored(bits) => MarkAllComplete(s, bits)
  }

  lemma ShuffleInRange(s: State, order: seq<nat>)
    requires Wf(s) && multiset(order) == multiset(s.active)
    ensures forall k :: 0 <= k < |order| ==> order[k] < |s.chunks|
  {
    SameElements(order, s.active);
    assert forall k :: 0 <= k < |order| ==> order[k] in order;
  }

  // ---------------------------------------------------------------- set-up events

  lemma ShuffleKeeps(s: State, order: seq<nat>)
    requires Inv(s) && multiset(order) == multiset(s.active)
    ensures Inv(s.(active := order))
  {
    ShuffleInRange(s, order);
    NoDupCounts(order);
    NoDupCounts(s.active);
    SameElements(order, s.active);
  }

  lemma ChunkSizesKeeps(s: State, sizes: seq<nat>)
    requires Inv(s) && s.subBlocks == []
    ensures Inv(SetChunkSizes(s, sizes))
  {
    var r := SetChunkSizes(s, sizes);
    forall c | 0 <= c < |r.chunks|
      ensures CountTrue(r.req[c]) == 0 && CountTrue(r.done[c]) == 0 && s.reqCount[c] == 0 && s.doneCount[c] == 0
    {
      assert s.req[c] == [] && s.done[c] == [];
      CountTrueZero(r.req[c]);
      CountTrueZero(r.done[c]);
    }
  }

  lemma InitHolds(n: nat, localSpeed: nat)
    ensures Inv(Init(n, localSpeed)) && MissingExact(Init(n, localSpeed))
  {
    var s := Init(n, localSpeed);
    AllMissing(s.chunks);
    forall c: nat ensures c in s.active <==> c < n {
      if c < n { assert s.active[c] == c; }
    }
  }

  lemma {:induction false} AllMissing(chunks: seq<ChunkState>)
    requires forall c :: 0 <= c < |chunks| ==> chunks[c] != Complete
    ensures Unfinished(chunks) == |chunks|
  {
    if |chunks| > 0 { AllMissing(chunks[..|chunks| - 1]); }
  }

  // ---------------------------------------------------------------- every run

  lemma MarkAllKeeps(s: State, bits: seq<bool>)
    requires Inv(s)
    ensures Inv(MarkAllComplete(s, bits))
  {
    MarkFromKeeps(s, bits, 0);
  }

  lemma PeerFieldsKeep(s: State, e: Event)
    requires Inv(s) && Enabled(s, e) && (e.PeerSpeed? || e.ChokeChange? || e.Tuned?)
    ensures Inv(Apply(s, e)) && NetFrame(s, Apply(s, e))
  {
    match e
    case PeerSpeed(slot, speed) =>
      PeerUpdateKeeps(s, slot, (peer: PeerSlot) => peer.(speed := speed, speedReported := speed));
    case ChokeChange(slot, choking) =>
      PeerUpdateKeeps(s, slot, (peer: PeerSlot) => peer.(choking := choking));
    case Tuned(slot, cap, timeouts, rttUs) =>
      PeerUpdateKeeps(s, slot, (peer: PeerSlot) => peer.(cap := cap, timeouts := timeouts, rttUs := rttUs));
  }

  /** Events that come from the network and the clock, as opposed to set-up and verification. */
  predicate NetEvent(e: Event) {
    match e
    case Bitfield(_, _, _) => true
    case Have(_, _, _) => true
    case PeerAdded(_, _) => true
    case PeerSpeed(_, _) => true
    case PeerRemoved(_) => true
    case ChokeChange(_, _) => true
    case Tuned(_, _, _, _) => true
    case PieceArrived(_, _, _, _) => true
    case TimedOut(_, _) => true
    case Ticked(_) => true
    case _ => false
  }

  lemma NetEventKeeps(s: State, e: Event)
    requires Inv(s) && Enabled(s, e) && NetEvent(e)
    ensures Inv(Apply(s, e)) && NetFrame(s, Apply(s, e))
  {
    if e.Bitfield? {
      OnBitfieldKeeps(s, e.slot, e.bits, e.now);
    } else if e.Have? {
      OnHaveKeeps(s, e.slot, e.chunk, e.now);
    } else if e.PeerAdded? {
      OnPeerAddedKeeps(s, e.slot, e.speed);
    } else if e.PeerRemoved? {
      var found := FindSlot(s.peers, e.slot);
      if found.Some? { WithoutPeerKeeps(s, found.value); }
    } else if e.PieceArrived? {
      OnPieceKeeps(s, e.slot, e.chunk, e.begin, e.now);
    } else if e.TimedOut? {
      OnTimeoutKeeps(s, e.chunk, e.begin);
    } else if e.Ticked? {
      TickKeeps(s, e.now);
    } else {
      PeerFieldsKeep(s, e);
    }
  }

  lemma ApplyKeeps(s: State, e: Event)
    requires Inv(s) && Enabled(s, e)
    ensures Inv(Apply(s, e))
  {
    match e
    case ChunkSizes(sizes) => ChunkSizesKeeps(s, sizes);
    case Shuffled(order) => ShuffleKeeps(s, order);
    case CancelIssuerSet =>
    case DeclineIssuerSet =>
    case Completions(msgs) => ProcessCompletionsKeeps(s, msgs);
    case Failed(c) => VerifyFailedKeeps(s, c);
    case Restored(bits) => MarkAllKeeps(s, bits);
    case _ => NetEventKeeps(s, e);
  }

  /** r is reached from s by the given events, each one enabled when it arrives. */
  ghost predicate Reaches(s: State, events: seq<Event>, r: State)
    requires Wf(s)
    decreases |events|
  {
    if |events| == 0 then r == s
    else Enabled(s, events[0]) && Reaches(Apply(s, events[0]), events[1..], r)
  }

  /** Every reachable state satisfies the invariant: no requested sub-block is orphaned, the active
      list is exactly the unfinished chunks, request counters never exceed the bits they count,
      availability covers the advertisers, and windows are bounded before the endgame. */
  lemma {:induction false} ReachableStatesAreSound(s: State, events: seq<Event>, r: State)
    requires Inv(s) && Reaches(s, events, r)
    ensures Inv(r)
    decreases |events|
  {
    if |events| > 0 {
      ApplyKeeps(s, events[0]);
      ReachableStatesAreSound(Apply(s, events[0]), events[1..], r);
    }
  }

  lemma RunsFromInitAreSound(n: nat, localSpeed: nat, events: seq<Event>, r: State)
    requires Reaches(Init(n, localSpeed), events, r)
    ensures Inv(r)
  {
    InitHolds(n, localSpeed);
    ReachableStatesAreSound(Init(n, localSpeed), events, r);
  }

  // ---------------------------------------------------------------- completion accounting

  /** Verification results arrive once per unfinished chunk; restored chunks were never started. */
  ghost predicate Disciplined(s: State, e: Event)
    requires Wf(s)
  {
    match e
    case Completions(msgs) => FreshCompletions(s.chunks, msgs, 0)
    case Failed(c) => c < |s.chunks| && s.chunks[c] != Complete
    case Restored(bits) =>
      forall c :: 0 <= c < |s.chunks| && c < |bits| && bits[c] ==> s.chunks[c] == Complete || s.chunks[c] == Missing
    case _ => true
  }

  /** `missing_count_` counts the unfinished chunks and DONE means there are none. */
  ghost predicate Accounted(s: State) {
    && MissingExact(s)
    && (s.phase == Done ==> s.missing == 0)
    && (s.missing == 0 ==> s.phase == Done || |s.chunks| == 0)
  }

  /** One completion keeps the count exact exactly when the chunk was not complete before. */
  lemma CompletionCountsOnce(s: State, msg: Completion)
    requires Inv(s) && MissingExact(s) && msg.chunk < |s.chunks| && |s.chunks| <= UINT32_MAX
    ensures MissingExact(CompleteOne(s, msg)) <==> s.chunks[msg.chunk] != Complete
  {
    var r := CompleteOneKeeps(s, msg);
    UnfinishedUpdate(s.chunks, msg.chunk, Complete);
  }

  /** A failed verification keeps the count exact exactly when the chunk was not complete. */
  lemma FailureCountsOnce(s: State, c: nat)
    requires Wf(s) && MissingExact(s) && c < |s.chunks|
    ensures MissingExact(VerifyFailed(s, c)) <==> s.chunks[c] != Complete
  {
    UnfinishedUpdate(s.chunks, c, Missing);
  }

  /** Restoring a chunk keeps the count exact exactly when it was MISSING or already COMPLETE. */
  lemma RestoreCountsOnce(s: State, c: nat)
    requires Wf(s) && MissingExact(s) && c < |s.chunks| && |s.chunks| <= UINT32_MAX
    ensures MissingExact(MarkOne(s, c)) <==> s.chunks[c] == Complete || s.chunks[c] == Missing
  {
    UnfinishedUpdate(s.chunks, c, Complete);
  }

  lemma {:induction false} MarkFromMissing(s: State, bits: seq<bool>, k: nat)
    requires Inv(s) && MissingExact(s)
    requires forall c :: k <= c < |s.chunks| && c < |bits| && bits[c] ==>
               s.chunks[c] == Complete || s.chunks[c] == Missing
    ensures MissingExact(MarkFrom(s, bits, k))
    decreases |bits| - k
  {
    if k < |bits| && k < |s.chunks| {
      var s1 := if bits[k] then MarkOne(s, k) else s;
      if bits[k] {
        MarkOneKeeps(s, k);
        UnfinishedUpdate(s.chunks, k, Complete);
      }
      MarkFromMissing(s1, bits, k + 1);
    }
  }

  lemma CompletionsKeepCount(s: State, msgs: seq<Completion>)
    requires Inv(s) && Accounted(s) && FreshCompletions(s.chunks, msgs, 0)
    ensures Accounted(ProcessCompletions(s, msgs))
  {
    CompleteFromMissing(s, msgs, 0);
    var r := CompleteFromKeeps(s, msgs, 0);
    UnfinishedZero(s.chunks);
    UnfinishedZero(CompleteFrom(s, msgs, 0).chunks);
  }

  lemma RestoreKeepsCount(s: State, bits: seq<bool>)
    requires Inv(s) && Accounted(s) && Disciplined(s, Restored(bits))
    ensures Accounted(MarkAllComplete(s, bits))
  {
    MarkFromMissing(s, bits, 0);
    MarkFromKeeps(s, bits, 0);
    UnfinishedZero(s.chunks);
    UnfinishedZero(MarkFrom(s, bits, 0).chunks);
  }

  lemma NetEventKeepsCount(s: State, e: Event)
    requires Inv(s) && Enabled(s, e) && Accounted(s) && NetEvent(e)
    ensures Accounted(Apply(s, e))
  {
    NetEventKeeps(s, e);
    UnfinishedSame(s.chunks, Apply(s, e).chunks);
  }

  lemma DisciplinedKeepsCount(s: State, e: Event)
    requires Inv(s) && Enabled(s, e) && Accounted(s) && Disciplined(s, e)
    ensures Accounted(Apply(s, e))
  {
    match e
    case Completions(msgs) => CompletionsKeepCount(s, msgs);
    case Failed(c) => UnfinishedUpdate(s.chunks, c, Missing);
    case Restored(bits) => RestoreKeepsCount(s, bits);
    case ChunkSizes(_) =>
    case Shuffled(_) =>
    case CancelIssuerSet =>
    case DeclineIssuerSet =>
    case _ => NetEventKeepsCount(s, e);
  }

  ghost predicate DisciplinedRun(s: State, events: seq<Event>)
    requires Wf(s)
    decreases |events|
  {
    |events| == 0
    || (Enabled(s, events[0]) && Disciplined(s, events[0]) && DisciplinedRun(Apply(s, events[0]), events[1..]))
  }

  /** Over every disciplined run the counter never wraps and DONE is reached exactly when every
      chunk is COMPLETE. */
  lemma {:induction false} DisciplinedRunsCount(s: State, events: seq<Event>, r: State)
    requires Inv(s) && Accounted(s) && DisciplinedRun(s, events) && Reaches(s, events, r)
    ensures MissingExact(r) && r.missing <= |r.chunks|
    ensures |r.chunks| > 0 ==> (r.phase == Done <==> forall c :: 0 <= c < |r.chunks| ==> r.chunks[c] == Complete)
    decreases |events|
  {
    if |events| == 0 {
      UnfinishedZero(r.chunks);
    } else {
      ApplyKeeps(s, events[0]);
      DisciplinedKeepsCount(s, events[0]);
      DisciplinedRunsCount(Apply(s, events[0]), events[1..], r);
    }
  }

  // ---------------------------------------------------------------- availability

  /** How far availability of c is above the number of connected peers advertising it. */
  ghost function Excess(s: State, c: nat): int
    requires c < |s.availability|
  {
    s.availability[c] - Advertisers(s.peers, c)
  }

  ghost predicate AvailabilityExact(s: State) {
    forall c :: 0 <= c < |s.availability| ==> Excess(s, c) == 0
  }

  /** The bits a peer advertised before a BITFIELD replaces them are never taken back. */
  ghost function StaleBit(s: State, e: Event, c: nat): int {
    match e
    case Bitfield(slot, _, _) =>
      (match FindSlot(s.peers, slot)
       case None => 0
       case Some(p) => if Advertises(s.peers[p], c) then 1 else 0)
    case _ => 0
  }

  lemma ScheduledKeepsExcess(s: State, r: State, c: nat)
    requires Scheduled(s, r) && c < |s.availability|
    ensures Excess(r, c) == Excess(s, c)
  {
    AdvertisersSame(r.peers, s.peers, c);
  }

  lemma BitfieldExcess(s: State, slot: nat, bits: seq<bool>, now: nat, c: nat)
    requires Inv(s) && c < |s.availability|
    ensures |OnBitfield(s, slot, bits, now).availability| == |s.availability|
    ensures Excess(OnBitfield(s, slot, bits, now), c) == Excess(s, c) + StaleBit(s, Bitfield(slot, bits, now), c)
  {
    match FindSlot(s.peers, slot)
    case None =>
    case Some(p) =>
      BitfieldUpdateKeeps(s, p, bits, AddBits(s.availability, bits));
      AdvertisersUpdate(s.peers, p, s.peers[p].(bitfield := bits), c);
      RebalanceExcess(NoteBitfield(s, p, bits), slot, p, now, 16, c);
  }

  lemma HaveExcess(s: State, slot: nat, h: nat, now: nat, c: nat)
    requires Inv(s) && c < |s.availability|
    ensures |OnHave(s, slot, h, now).availability| == |s.availability|
    ensures Excess(OnHave(s, slot, h, now), c) == Excess(s, c)
  {
    match FindSlot(s.peers, slot)
    case None =>
    case Some(p) =>
      if h < |s.peers[p].bitfield| {
        var s1 := NoteHaveExcess(s, p, h, c);
        RebalanceExcess(s1, slot, p, now, 8, c);
      }
  }

  lemma NoteHaveExcess(s: State, p: nat, h: nat, c: nat) returns (s1: State)
    requires Inv(s) && p < |s.peers| && h < |s.peers[p].bitfield| && c < |s.availability|
    ensures s1 == NoteHave(s, p, h) && Inv(s1) && |s1.availability| == |s.availability| && |s1.peers| == |s.peers|
    ensures Excess(s1, c) == Excess(s, c)
  {
    s1 := NoteHave(s, p, h);
    NoteHaveKeeps(s, p, h);
    if !s.peers[p].bitfield[h] {
      AdvertisersUpdate(s.peers, p, s1.peers[p], c);
    }
  }

  /** What follows a change of a peer's bitfield does not touch availability. */
  lemma RebalanceExcess(s: State, slot: nat, p: nat, now: nat, maxMoves: nat, c: nat)
    requires Inv(s) && p < |s.peers| && c < |s.availability|
    ensures var r := Rebalance(CheckInterest(s, slot), p, now, maxMoves);
            |r.availability| == |s.availability| && Excess(r, c) == Excess(s, c)
  {
    var m := CheckInterest(s, slot);
    CheckInterestKeeps(s, slot);
    ScheduledKeepsExcess(s, m, c);
    RebalanceKeeps(m, p, now, maxMoves);
    ScheduledKeepsExcess(m, Rebalance(m, p, now, maxMoves), c);
  }

  lemma RemovalExcess(s: State, p: nat, c: nat)
    requires Inv(s) && p < |s.peers| && c < |s.availability|
    ensures Excess(WithoutPeer(s, p), c) == Excess(s, c)
  {
    AdvertisersSplit(s.peers, p, c);
    assert Advertisers(s.peers, c) <= s.availability[c];
  }

  lemma PieceExcess(s: State, slot: nat, h: nat, begin: nat, now: nat, c: nat)
    requires Inv(s) && c < |s.availability|
    ensures |OnPiece(s, slot, h, begin, now).availability| == |s.availability|
    ensures Excess(OnPiece(s, slot, h, begin, now), c) == Excess(s, c)
  {
    match FindSlot(s.peers, slot)
    case None =>
    case Some(p) =>
      if s.peers[p].pending > 0 {
        var s1 := Landed(s, p, h, begin);
        LandedKeeps(s, p, h, begin);
        AdvertisersSame(s1.peers, s.peers, c);
        if s1.phase != Done {
          ScheduleForPeerKeeps(s1, p, now);
          ScheduledKeepsExcess(s1, ScheduleForPeer(s1, p, now), c);
        }
      }
  }

  lemma CancelAtExcess(s: State, h: nat, winner: nat, p: nat, c: nat) returns (r: State)
    requires Wf(s) && p < |s.peers| && c < |s.availability|
    ensures r == CancelAt(s, h, winner, p) && Wf(r) && |r.peers| == |s.peers|
    ensures r.availability == s.availability && Excess(r, c) == Excess(s, c)
  {
    r := CancelAt(s, h, winner, p);
    AdvertisersSame(r.peers, s.peers, c);
  }

  lemma {:induction false} CancelExcess(s: State, h: nat, winner: nat, p: nat, c: nat) returns (r: State)
    requires Wf(s) && p <= |s.peers| && c < |s.availability|
    ensures r == CancelFrom(s, h, winner, p) && r.availability == s.availability && Excess(r, c) == Excess(s, c)
    decreases |s.peers| - p
  {
    r := s;
    if p < |s.peers| {
      var s1 := CancelAtExcess(s, h, winner, p, c);
      r := CancelExcess(s1, h, winner, p + 1, c);
    }
  }

  lemma CompleteOneExcess(s: State, msg: Completion, c: nat) returns (r: State)
    requires Wf(s) && msg.chunk < |s.chunks| && c < |s.availability|
    ensures r == CompleteOne(s, msg) && r.availability == s.availability && Excess(r, c) == Excess(s, c)
  {
    var s1 := CancelExcess(Finished(s, msg.chunk), msg.chunk, msg.winner, 0, c);
    r := CompleteOne(s, msg);
  }

  lemma {:induction false} CompletionExcess(s: State, msgs: seq<Completion>, k: nat, c: nat) returns (r: State)
    requires Wf(s) && k <= |msgs| && c < |s.availability|
    requires forall i :: 0 <= i < |msgs| ==> msgs[i].chunk < |s.chunks|
    ensures r == CompleteFrom(s, msgs, k) && r.availability == s.availability && Excess(r, c) == Excess(s, c)
    decreases |msgs| - k
  {
    r := s;
    if k < |msgs| {
      var s1 := CompleteOneExcess(s, msgs[k], c);
      r := CompletionExcess(s1, msgs, k + 1, c);
    }
  }

  lemma {:induction false} MarkExcess(s: State, bits: seq<bool>, k: nat)
    requires Wf(s)
    ensures MarkFrom(s, bits, k).availability == s.availability && MarkFrom(s, bits, k).peers == s.peers
    decreases |bits| - k
  {
    if k < |bits| && k < |s.chunks| {
      MarkExcess(if bits[k] then MarkOne(s, k) else s, bits, k + 1);
    }
  }

  lemma PeerFieldExcess(s: State, e: Event, c: nat)
    requires Inv(s) && Enabled(s, e) && (e.PeerSpeed? || e.ChokeChange? || e.Tuned?) && c < |s.availability|
    ensures |Apply(s, e).availability| == |s.availability| && Excess(Apply(s, e), c) == Excess(s, c)
  {
    AdvertisersSame(Apply(s, e).peers, s.peers, c);
  }

  lemma PeerSetExcess(s: State, e: Event, c: nat)
    requires Inv(s) && Enabled(s, e) && c < |s.availability| && (e.PeerAdded? || e.PeerRemoved?)
    ensures |Apply(s, e).availability| == |s.availability|
    ensures Excess(Apply(s, e), c) == Excess(s, c)
  {
    match e
    case PeerAdded(slot, speed) =>
      AdvertisersConcat(s.peers, [NewPeer(slot, speed, |s.availability|)], c);
      assert Advertisers([NewPeer(slot, speed, |s.availability|)], c) == 0;
    case PeerRemoved(slot) =>
      match FindSlot(s.peers, slot) {
        case None =>
        case Some(p) => RemovalExcess(s, p, c);
      }
  }

  lemma TickExcess(s: State, now: nat, c: nat)
    requires Inv(s) && c < |s.availability|
    ensures |Tick(s, now).availability| == |s.availability| && Excess(Tick(s, now), c) == Excess(s, c)
  {
    TickKeeps(s, now);
    ScheduledKeepsExcess(s, Tick(s, now), c);
  }

  /** Every event moves the excess by exactly the stale bits it overwrites. */
  lemma ExcessDrift(s: State, e: Event, c: nat)
    requires Inv(s) && Enabled(s, e) && c < |s.availability|
    ensures |Apply(s, e).availability| == |s.availability|
    ensures Excess(Apply(s, e), c) == Excess(s, c) + StaleBit(s, e, c)
  {
    if e.Bitfield? {
      BitfieldExcess(s, e.slot, e.bits, e.now, c);
    } else if e.Have? {
      HaveExcess(s, e.slot, e.chunk, e.now, c);
    } else if e.PeerAdded? || e.PeerRemoved? {
      PeerSetExcess(s, e, c);
    } else if e.PieceArrived? {
      PieceExcess(s, e.slot, e.chunk, e.begin, e.now, c);
    } else if e.Ticked? {
      TickExcess(s, e.now, c);
    } else if e.Completions? {
      var r := CompletionExcess(s, e.msgs, 0, c);
    } else if e.Restored? {
      MarkExcess(s, e.bits, 0);
    } else if e.PeerSpeed? || e.ChokeChange? || e.Tuned? {
      PeerFieldExcess(s, e, c);
    }
  }

  /** Exact availability survives an event if and only if no advertised bit is overwritten. */
  lemma ExactnessSurvives(s: State, e: Event)
    requires Inv(s) && Enabled(s, e) && AvailabilityExact(s)
    ensures AvailabilityExact(Apply(s, e)) <==> forall c :: 0 <= c < |s.availability| ==> StaleBit(s, e, c) == 0
  {
    var r := Apply(s, e);
    if |s.availability| == 0 { EmptyStaysEmpty(s, e); } else { ExcessDrift(s, e, 0); }
    forall c | 0 <= c < |s.availability|
      ensures Excess(r, c) == StaleBit(s, e, c)
    {
      ExcessDrift(s, e, c);
    }
  }

  lemma EmptyStaysEmpty(s: State, e: Event)
    requires Inv(s) && Enabled(s, e) && |s.availability| == 0
    ensures |Apply(s, e).availability| == 0
  {
    if e.Completions? {
      var r := CompleteFromKeeps(s, e.msgs, 0);
    } else if e.Restored? {
      MarkFromKeeps(s, e.bits, 0);
    } else if NetEvent(e) {
      NetEventKeeps(s, e);
    }
  }

  ghost predicate FreshBitfieldRun(s: State, events: seq<Event>)
    requires Wf(s)
    decreases |events|
  {
    |events| == 0
    || (&& Enabled(s, events[0])
        && (forall c :: 0 <= c < |s.availability| ==> StaleBit(s, events[0], c) == 0)
        && FreshBitfieldRun(Apply(s, events[0]), events[1..]))
  }

  /** When each peer's BITFIELD comes before anything it advertises, rarest-first data is exact. */
  lemma {:induction false} FreshBitfieldsStayExact(s: State, events: seq<Event>, r: State)
    requires Inv(s) && AvailabilityExact(s) && FreshBitfieldRun(s, events) && Reaches(s, events, r)
    ensures AvailabilityExact(r)
    decreases |events|
  {
    if |events| > 0 {
      ApplyKeeps(s, events[0]);
      ExactnessSurvives(s, events[0]);
      FreshBitfieldsStayExact(Apply(s, events[0]), events[1..], r);
    }
  }
}
