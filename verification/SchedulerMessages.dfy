/** What holds of every message a peer sends: full sources are spared while others hold parts of the
    file, and availability is exact when each peer's BITFIELD comes first. */
module SchedulerMessages {
  import opened SchedulerModel
  import opened SchedulerInvariant
  import opened SchedulerRuns
  import opened SchedulerEvents
  import opened SchedulerTransfers

  // ---------------------------------------------------------------- peers that only give up requests

  /** The same peers with the same bitfields, none of them with more to do. */
  ghost predicate NoBusier(a: seq<PeerSlot>, b: seq<PeerSlot>) {
    && |a| == |b|
    && (forall q :: 0 <= q < |a| ==>
          b[q].slotId == a[q].slotId && b[q].bitfield == a[q].bitfield && b[q].pending <= a[q].pending)
  }

  lemma {:induction false} CancelNoBusier(s: State, c: nat, winner: nat, p: nat)
    requires Wf(s) && p <= |s.peers|
    ensures NoBusier(s.peers, CancelFrom(s, c, winner, p).peers)
    decreases |s.peers| - p
  {
    if p < |s.peers| { CancelNoBusier(CancelAt(s, c, winner, p), c, winner, p + 1); }
  }

  lemma {:induction false} CompletionNoBusier(s: State, msgs: seq<Completion>, k: nat)
    requires Wf(s) && k <= |msgs| && forall i :: 0 <= i < |msgs| ==> msgs[i].chunk < |s.chunks|
    ensures NoBusier(s.peers, CompleteFrom(s, msgs, k).peers)
    decreases |msgs| - k
  {
    if k < |msgs| {
      var s1 := Finished(s, msgs[k].chunk);
      if s1.canCancel { CancelNoBusier(s1, msgs[k].chunk, msgs[k].winner, 0); }
      CompletionNoBusier(CompleteOne(s, msgs[k]), msgs, k + 1);
    }
  }

  /** Events that neither request anything nor change who is there or what anybody has. */
  predicate Quiet(e: Event) {
    !e.Bitfield? && !e.Have? && !e.PieceArrived? && !e.Ticked? && !e.PeerRemoved? && !e.PeerAdded?
  }

  lemma QuietNoBusier(s: State, e: Event)
    requires Inv(s) && Enabled(s, e) && Quiet(e)
    ensures NoBusier(s.peers, Apply(s, e).peers)
  {
    if e.Completions? {
      CompletionNoBusier(s, e.msgs, 0);
    } else if e.Restored? {
      MarkExcess(s, e.bits, 0);
    } else if e.PeerSpeed? || e.ChokeChange? || e.Tuned? {
      UpdateNoBusier(s, e);
    }
  }

  lemma UpdateNoBusier(s: State, e: Event)
    requires Wf(s) && Enabled(s, e) && (e.PeerSpeed? || e.ChokeChange? || e.Tuned?)
    ensures NoBusier(s.peers, Apply(s, e).peers)
  {
  }

  // ---------------------------------------------------------------- full sources are spared

  /** No full source ended up with more requests than it had, unless with at most 32. */
  ghost predicate SeedsSpared(s: State, r: State) {
    forall q0, q :: 0 <= q0 < |s.peers| && 0 <= q < |r.peers| && s.peers[q0].slotId == r.peers[q].slotId
                    && IsFullSource(r.peers[q], |r.chunks|) ==>
                      r.peers[q].pending <= s.peers[q0].pending || r.peers[q].pending <= 32
  }

  lemma SparedByIndex(s: State, r: State)
    requires UniqueSlots(s.peers) && |r.peers| == |s.peers|
    requires forall q :: 0 <= q < |s.peers| ==> r.peers[q].slotId == s.peers[q].slotId
    requires forall q :: 0 <= q < |s.peers| && IsFullSource(r.peers[q], |r.chunks|) ==>
               r.peers[q].pending <= s.peers[q].pending || r.peers[q].pending <= 32
    ensures SeedsSpared(s, r)
  {
  }

  /** s1 is s with a bitfield or a pending count changed; the scheduling that follows caps full sources. */
  lemma SparedAfter(s: State, s1: State, r: State)
    requires UniqueSlots(s.peers) && |s1.peers| == |s.peers| && Scheduled(s1, r) && SeedCapped(s1, r)
    requires forall q :: 0 <= q < |s.peers| ==>
               s1.peers[q].slotId == s.peers[q].slotId && s1.peers[q].pending <= s.peers[q].pending
    ensures SeedsSpared(s, r)
  {
    SparedByIndex(s, r);
  }

  lemma AdvertSpares(s: State, s1: State, slot: nat, p: nat, now: nat, maxMoves: nat)
    requires UniqueSlots(s.peers) && Inv(s1) && |s1.peers| == |s.peers| && p < |s1.peers|
    requires forall q :: 0 <= q < |s.peers| ==>
               s1.peers[q].slotId == s.peers[q].slotId && s1.peers[q].pending <= s.peers[q].pending
    ensures SeedsSpared(s, Rebalance(CheckInterest(s1, slot), p, now, maxMoves))
  {
    CheckInterestKeeps(s1, slot);
    var r := RebalanceSparesSeeds(CheckInterest(s1, slot), p, now, maxMoves);
    SparedAfter(s, CheckInterest(s1, slot), r);
  }

  lemma BitfieldSpares(s: State, slot: nat, bits: seq<bool>, now: nat)
    requires Inv(s)
    ensures SeedsSpared(s, OnBitfield(s, slot, bits, now))
  {
    match FindSlot(s.peers, slot)
    case None => SparedByIndex(s, s);
    case Some(p) =>
      BitfieldUpdateKeeps(s, p, bits, AddBits(s.availability, bits));
      AdvertSpares(s, NoteBitfield(s, p, bits), slot, p, now, 16);
  }

  lemma HaveSpares(s: State, slot: nat, h: nat, now: nat)
    requires Inv(s)
    ensures SeedsSpared(s, OnHave(s, slot, h, now))
  {
    var found := FindSlot(s.peers, slot);
    if found.Some? && h < |s.peers[found.value].bitfield| {
      NoteHaveKeeps(s, found.value, h);
      AdvertSpares(s, NoteHave(s, found.value, h), slot, found.value, now, 8);
    } else {
      SparedByIndex(s, s);
    }
  }

  lemma PieceSpares(s: State, slot: nat, h: nat, begin: nat, now: nat)
    requires Inv(s) && HasPartialSources(s.peers, |s.chunks|)
    ensures SeedsSpared(s, OnPiece(s, slot, h, begin, now))
  {
    var found := FindSlot(s.peers, slot);
    if found.None? || s.peers[found.value].pending == 0 {
      SparedByIndex(s, s);
    } else {
      LandedSame(s, found.value, h, begin);
      LandedPartial(s, found.value, h, begin);
      LandedKeeps(s, found.value, h, begin);
      LandedSpares(s, Landed(s, found.value, h, begin), found.value, now);
    }
  }

  /** The same peers, none of them busier. */
  lemma LandedSame(s: State, p: nat, h: nat, begin: nat)
    requires Wf(s) && p < |s.peers|
    ensures var r := Landed(s, p, h, begin);
            forall q :: 0 <= q < |s.peers| ==>
              r.peers[q].slotId == s.peers[q].slotId && r.peers[q].bitfield == s.peers[q].bitfield
              && r.peers[q].pending <= s.peers[q].pending
  {
  }

  lemma LandedSpares(s: State, s1: State, p: nat, now: nat)
    requires UniqueSlots(s.peers) && Inv(s1) && |s1.peers| == |s.peers| && p < |s1.peers|
    requires HasPartialSources(s1.peers, |s1.chunks|)
    requires forall q :: 0 <= q < |s.peers| ==>
               s1.peers[q].slotId == s.peers[q].slotId && s1.peers[q].pending <= s.peers[q].pending
    ensures SeedsSpared(s, if s1.phase != Done then ScheduleForPeer(s1, p, now) else s1)
  {
    if s1.phase == Done {
      SparedByIndex(s, s1);
    } else {
      ScheduleSparesSeeds(s1, p, now);
      ScheduleForPeerKeeps(s1, p, now);
      SparedAfter(s, s1, ScheduleForPeer(s1, p, now));
    }
  }

  lemma LandedPartial(s: State, p: nat, h: nat, begin: nat)
    requires Wf(s) && p < |s.peers| && HasPartialSources(s.peers, |s.chunks|)
    ensures HasPartialSources(Landed(s, p, h, begin).peers, |Landed(s, p, h, begin).chunks|)
  {
    var q :| 0 <= q < |s.peers| && IsPartialSource(s.peers[q], |s.chunks|);
    assert IsPartialSource(Landed(s, p, h, begin).peers[q], |s.chunks|);
  }

  /** Before ENDGAME, while some peer holds a part of the file, no event lifts a full source above 32
      pending requests. */
  lemma EventSparesSeeds(s: State, e: Event)
    requires Inv(s) && Enabled(s, e) && s.phase == Normal && HasPartialSources(s.peers, |s.chunks|)
    ensures SeedsSpared(s, Apply(s, e))
  {
    if Quiet(e) {
      QuietSpares(s, e);
    } else if e.Bitfield? {
      BitfieldSpares(s, e.slot, e.bits, e.now);
    } else if e.Have? {
      HaveSpares(s, e.slot, e.chunk, e.now);
    } else if e.PieceArrived? {
      PieceSpares(s, e.slot, e.chunk, e.begin, e.now);
    } else if e.Ticked? {
      TickSpares(s, e.now);
    } else if e.PeerRemoved? {
      RemovalSpares(s, e.slot);
    }
  }

  lemma TickSpares(s: State, now: nat)
    requires Inv(s) && s.phase == Normal && HasPartialSources(s.peers, |s.chunks|)
    ensures SeedsSpared(s, Tick(s, now))
  {
    TickKeeps(s, now);
    TickSparesSeeds(s, now);
    SparedAfter(s, s, Tick(s, now));
  }

  lemma QuietSpares(s: State, e: Event)
    requires Inv(s) && Enabled(s, e) && Quiet(e)
    ensures SeedsSpared(s, Apply(s, e))
  {
    QuietNoBusier(s, e);
    SparedByIndex(s, Apply(s, e));
  }

  lemma RemovalSpares(s: State, slot: nat)
    requires Inv(s)
    ensures SeedsSpared(s, OnPeerRemoved(s, slot))
  {
    var found := FindSlot(s.peers, slot);
    if found.None? {
      SparedByIndex(s, s);
    } else {
      FewerSpared(s, WithoutPeer(s, found.value), found.value);
    }
  }

  lemma FewerSpared(s: State, r: State, p: nat)
    requires UniqueSlots(s.peers) && p < |s.peers| && r.peers == s.peers[..p] + s.peers[p + 1..]
    ensures SeedsSpared(s, r)
  {
    assert forall q :: 0 <= q < |r.peers| ==> r.peers[q] == s.peers[if q < p then q else q + 1];
  }

  // ---------------------------------------------------------------- BITFIELD first

  /** The message tells what its sender has. */
  predicate SpeaksFor(e: Event, slot: nat) { (e.Bitfield? || e.Have?) && e.slot == slot }

  /** Nobody who is to send a BITFIELD has spoken before: one per peer, ahead of any HAVE. */
  ghost predicate BitfieldsFirst(events: seq<Event>) {
    forall i, j :: 0 <= i < j < |events| && events[j].Bitfield? ==> !SpeaksFor(events[i], events[j].slot)
  }

  /** A peer with this slot, if there is one, has advertised nothing. */
  ghost predicate Silent(s: State, slot: nat) {
    forall q, c :: 0 <= q < |s.peers| && s.peers[q].slotId == slot ==> !Advertises(s.peers[q], c)
  }

  lemma SilentBySame(s: State, r: State, slot: nat)
    requires Silent(s, slot) && |r.peers| == |s.peers|
    requires forall q :: 0 <= q < |s.peers| ==>
               r.peers[q].slotId == s.peers[q].slotId && r.peers[q].bitfield == s.peers[q].bitfield
    ensures Silent(r, slot)
  {
    forall q, c | 0 <= q < |r.peers| && r.peers[q].slotId == slot ensures !Advertises(r.peers[q], c) {
      assert !Advertises(s.peers[q], c);
    }
  }

  /** What follows a change of another peer's bitfield. */
  lemma SilentAfterAdvert(s: State, slot0: nat, p: nat, now: nat, maxMoves: nat, slot: nat)
    requires Inv(s) && p < |s.peers| && Silent(s, slot)
    ensures Silent(Rebalance(CheckInterest(s, slot0), p, now, maxMoves), slot)
  {
    CheckInterestKeeps(s, slot0);
    RebalanceKeeps(CheckInterest(s, slot0), p, now, maxMoves);
    SilentBySame(s, Rebalance(CheckInterest(s, slot0), p, now, maxMoves), slot);
  }

  lemma OthersStaySilent(s: State, s1: State, p: nat, slot: nat)
    requires Silent(s, slot) && |s1.peers| == |s.peers| && p < |s.peers| && s1.peers[p].slotId != slot
    requires forall q :: 0 <= q < |s.peers| && q != p ==> s1.peers[q] == s.peers[q]
    ensures Silent(s1, slot)
  {
    forall q, c | 0 <= q < |s1.peers| && s1.peers[q].slotId == slot ensures !Advertises(s1.peers[q], c) {
      assert !Advertises(s.peers[q], c);
    }
  }

  lemma AdvertStaysSilent(s: State, e: Event, slot: nat)
    requires Inv(s) && Silent(s, slot) && (e.Bitfield? || e.Have?) && e.slot != slot
    ensures Silent(Apply(s, e), slot)
  {
    match FindSlot(s.peers, e.slot)
    case None =>
    case Some(p) =>
      if e.Bitfield? {
        var s1 := NoteBitfield(s, p, e.bits);
        BitfieldUpdateKeeps(s, p, e.bits, AddBits(s.availability, e.bits));
        OthersStaySilent(s, s1, p, slot);
        SilentAfterAdvert(s1, e.slot, p, e.now, 16, slot);
      } else if e.chunk < |s.peers[p].bitfield| {
        var s1 := NoteHave(s, p, e.chunk);
        NoteHaveKeeps(s, p, e.chunk);
        OthersStaySilent(s, s1, p, slot);
        SilentAfterAdvert(s1, e.slot, p, e.now, 8, slot);
      }
  }

  lemma SilentRemoval(s: State, slot0: nat, slot: nat)
    requires Inv(s) && Silent(s, slot)
    ensures Silent(OnPeerRemoved(s, slot0), slot)
  {
    match FindSlot(s.peers, slot0)
    case None =>
    case Some(p) =>
      var r := WithoutPeer(s, p);
      forall q, c | 0 <= q < |r.peers| && r.peers[q].slotId == slot ensures !Advertises(r.peers[q], c) {
        assert r.peers[q] == s.peers[if q < p then q else q + 1];
      }
  }

  lemma SilentPiece(s: State, slot0: nat, h: nat, begin: nat, now: nat, slot: nat)
    requires Inv(s) && Silent(s, slot)
    ensures Silent(OnPiece(s, slot0, h, begin, now), slot)
  {
    var found := FindSlot(s.peers, slot0);
    if found.Some? && s.peers[found.value].pending > 0 {
      LandedKeeps(s, found.value, h, begin);
      LandedSame(s, found.value, h, begin);
      SilentBySame(s, Landed(s, found.value, h, begin), slot);
      SilentSchedule(Landed(s, found.value, h, begin), found.value, now, slot);
    }
  }

  lemma SilentSchedule(s: State, p: nat, now: nat, slot: nat)
    requires Inv(s) && p < |s.peers| && Silent(s, slot)
    ensures Silent(ScheduleForPeer(s, p, now), slot)
  {
    ScheduleForPeerKeeps(s, p, now);
    SilentBySame(s, ScheduleForPeer(s, p, now), slot);
  }

  /** Only its own messages make a peer known for anything. */
  lemma SilenceKept(s: State, e: Event, slot: nat)
    requires Inv(s) && Enabled(s, e) && Silent(s, slot) && !SpeaksFor(e, slot)
    ensures Silent(Apply(s, e), slot)
  {
    if Quiet(e) {
      QuietNoBusier(s, e);
      SilentBySame(s, Apply(s, e), slot);
    } else if e.Bitfield? || e.Have? {
      AdvertStaysSilent(s, e, slot);
    } else if e.PieceArrived? {
      SilentPiece(s, e.slot, e.chunk, e.begin, e.now, slot);
    } else if e.Ticked? {
      TickKeeps(s, e.now);
      SilentBySame(s, Tick(s, e.now), slot);
    } else if e.PeerRemoved? {
      SilentRemoval(s, e.slot, slot);
    }
  }

  lemma {:induction false} OrderedIsFresh(s: State, events: seq<Event>, r: State)
    requires Inv(s) && Reaches(s, events, r) && BitfieldsFirst(events)
    requires forall j :: 0 <= j < |events| && events[j].Bitfield? ==> Silent(s, events[j].slot)
    ensures FreshBitfieldRun(s, events)
    decreases |events|
  {
    if |events| > 0 {
      var e, rest := events[0], events[1..];
      ApplyKeeps(s, e);
      forall j | 0 <= j < |rest| && rest[j].Bitfield? ensures Silent(Apply(s, e), rest[j].slot) {
        assert rest[j] == events[j + 1];
        SilenceKept(s, e, rest[j].slot);
      }
      OrderedIsFresh(Apply(s, e), rest, r);
    }
  }

  /** If every peer sends at most one BITFIELD, and no HAVE before it, rarest-first data is exact in
      every state of the run. */
  lemma BitfieldFirstMeansExact(n: nat, localSpeed: nat, events: seq<Event>, r: State)
    requires Reaches(Init(n, localSpeed), events, r) && BitfieldsFirst(events)
    ensures AvailabilityExact(r)
  {
    InitHolds(n, localSpeed);
    OrderedIsFresh(Init(n, localSpeed), events, r);
    FreshBitfieldsStayExact(Init(n, localSpeed), events, r);
  }
}
