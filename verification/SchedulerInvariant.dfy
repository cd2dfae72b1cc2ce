/** What holds of the scheduler in every reachable state, and the proof that
    scheduling, rebalancing and endgame steps keep it. */
module SchedulerInvariant {
  import opened Counting
  import opened Sorting
  import opened SchedulerModel

  predicate Carries(peer: PeerSlot, c: nat, sub: nat) { BeginOf(sub) in Flying(peer, c) }

  /** Some connected peer is downloading sub-block sub of chunk c. */
  ghost predicate Carried(peers: seq<PeerSlot>, c: nat, sub: nat) {
    exists p :: 0 <= p < |peers| && Carries(peers[p], c, sub)
  }

  /** No requested sub-block of an unfinished chunk is lost: it is done or on its way. */
  ghost predicate NoOrphans(s: State)
    requires Wf(s)
  {
    forall c, sub :: 0 <= c < |s.chunks| && 0 <= sub < |s.req[c]| && s.chunks[c] != Complete && s.req[c][sub]
      ==> s.done[c][sub] || Carried(s.peers, c, sub)
  }

  ghost predicate UniqueSlots(peers: seq<PeerSlot>) {
    forall p, q :: 0 <= p < q < |peers| ==> peers[p].slotId != peers[q].slotId
  }

  /** The active list is a duplicate-free list of exactly the unfinished chunks. */
  ghost predicate ActiveExact(chunks: seq<ChunkState>, active: seq<nat>) {
    && NoDup(active)
    && (forall c: nat :: c in active <==> c < |chunks| && chunks[c] != Complete)
  }

  /** The request counter is a lower bound, the done counter is exact. */
  ghost predicate CountersSound(s: State)
    requires Wf(s)
  {
    forall c :: 0 <= c < |s.chunks| ==>
      s.reqCount[c] <= CountTrue(s.req[c]) && s.doneCount[c] == CountTrue(s.done[c])
  }

  function Advertisers(peers: seq<PeerSlot>, c: nat): nat {
    if |peers| == 0 then 0
    else Advertisers(peers[..|peers| - 1], c) + (if Advertises(peers[|peers| - 1], c) then 1 else 0)
  }

  ghost predicate AvailabilityCovers(availability: seq<nat>, peers: seq<PeerSlot>) {
    forall c :: 0 <= c < |availability| ==> Advertisers(peers, c) <= availability[c]
  }

  ghost predicate WindowsBounded(s: State) {
    forall p :: 0 <= p < |s.peers| ==>
      s.peers[p].cap <= 128 && (s.phase == Normal ==> s.peers[p].pending <= 128)
  }

  ghost predicate Inv(s: State) {
    && Wf(s)
    && UniqueSlots(s.peers)
    && ActiveExact(s.chunks, s.active)
    && CountersSound(s)
    && NoOrphans(s)
    && AvailabilityCovers(s.availability, s.peers)
    && WindowsBounded(s)
  }

  // ---------------------------------------------------------------- frames

  /** A request is only sent for an unfinished chunk and for a sub-block that exists. */
  ghost predicate Justified(s: State, e: Effect) {
    e.Request? ==>
      && e.chunk < |s.chunks|
      && s.chunks[e.chunk] != Complete
      && e.begin % 16384 == 0
      && SubOf(e.begin) < Total(s, e.chunk)
  }

  /** r has made the calls of s and then only justified ones. */
  ghost predicate CallsJustified(s: State, r: State) {
    && s.effects <= r.effects
    && (forall i :: |s.effects| <= i < |r.effects| ==> Justified(s, r.effects[i]))
  }

  ghost predicate SamePeers(a: seq<PeerSlot>, b: seq<PeerSlot>) {
    && |a| == |b|
    && (forall p :: 0 <= p < |a| ==>
          a[p].slotId == b[p].slotId && a[p].bitfield == b[p].bitfield && a[p].cap == b[p].cap
          && a[p].choking == b[p].choking && a[p].timeouts == b[p].timeouts)
  }

  /** r differs from s only in request bookkeeping. */
  ghost predicate Scheduled(s: State, r: State) {
    && |r.chunks| == |s.chunks|
    && (forall c :: 0 <= c < |s.chunks| ==> (r.chunks[c] == Complete <==> s.chunks[c] == Complete))
    && r.subBlocks == s.subBlocks
    && r.availability == s.availability
    && r.active == s.active
    && r.done == s.done
    && r.doneCount == s.doneCount
    && SamePeers(s.peers, r.peers)
    && r.phase == s.phase
    && r.missing == s.missing
    && r.localSpeed == s.localSpeed
    && r.canCancel == s.canCancel
    && r.canDecline == s.canDecline
    && CallsJustified(s, r)
  }

  lemma ScheduledTransitive(a: State, b: State, c: State)
    requires Scheduled(a, b) && Scheduled(b, c)
    ensures Scheduled(a, c)
  {
    forall i | |a.effects| <= i < |c.effects| ensures Justified(a, c.effects[i]) {
      assert i >= |b.effects| ==> Justified(b, c.effects[i]);
    }
  }

  lemma {:induction false} AdvertisersSame(a: seq<PeerSlot>, b: seq<PeerSlot>, c: nat)
    requires |a| == |b|
    requires forall p :: 0 <= p < |a| ==> Advertises(a[p], c) == Advertises(b[p], c)
    ensures Advertisers(a, c) == Advertisers(b, c)
  {
    if |a| > 0 {
      AdvertisersSame(a[..|a| - 1], b[..|a| - 1], c);
    }
  }

  /** The parts of the invariant that request bookkeeping cannot touch. */
  lemma ScheduledKeeps(s: State, r: State)
    requires Inv(s) && Wf(r) && Scheduled(s, r)
    ensures UniqueSlots(r.peers)
    ensures ActiveExact(r.chunks, r.active)
    ensures AvailabilityCovers(r.availability, r.peers)
  {
    forall c | 0 <= c < |r.availability|
      ensures Advertisers(r.peers, c) == Advertisers(s.peers, c)
    {
      AdvertisersSame(r.peers, s.peers, c);
    }
  }

  lemma CarriedGrows(a: seq<PeerSlot>, b: seq<PeerSlot>, c: nat, sub: nat)
    requires Carried(a, c, sub)
    requires |a| == |b|
    requires forall p :: 0 <= p < |a| ==> Flying(a[p], c) <= Flying(b[p], c)
    ensures Carried(b, c, sub)
  {
    var p :| 0 <= p < |a| && Carries(a[p], c, sub);
    assert Carries(b[p], c, sub);
  }

  // ---------------------------------------------------------------- issuing

  lemma IssueOneKeeps(s: State, p: nat, c: nat, sub: nat, now: nat)
    requires Inv(s) && p < |s.peers| && c < |s.chunks| && sub < Total(s, c)
    requires s.chunks[c] != Complete && !s.req[c][sub]
    requires s.peers[p].pending < 128
    ensures Inv(IssueOne(s, p, c, sub, now)) && Scheduled(s, IssueOne(s, p, c, sub, now))
  {
    var r := IssueOne(s, p, c, sub, now);
    assert BeginOf(sub) % 16384 == 0 && SubOf(BeginOf(sub)) == sub;
    assert Justified(s, Request(s.peers[p].slotId, c, BeginOf(sub)));
    ScheduledKeeps(s, r);
    CountTrueUpdate(s.req[c], sub, true);
    forall c', sub' | 0 <= c' < |r.chunks| && 0 <= sub' < |r.req[c']| && r.chunks[c'] != Complete && r.req[c'][sub']
      ensures r.done[c'][sub'] || Carried(r.peers, c', sub')
    {
      if c' == c && sub' == sub {
        assert Carries(r.peers[p], c, sub);
      } else if !s.done[c'][sub'] {
        CarriedGrows(s.peers, r.peers, c', sub');
      }
    }
  }

  lemma {:induction false} IssueFromKeeps(s: State, p: nat, c: nat, sub: nat, now: nat, cap: nat)
    requires Inv(s) && p < |s.peers| && c < |s.chunks| && s.chunks[c] != Complete && cap <= 128
    ensures Inv(IssueFrom(s, p, c, sub, now, cap)) && Scheduled(s, IssueFrom(s, p, c, sub, now, cap))
    decreases Total(s, c) - sub
  {
    if sub >= Total(s, c) || s.peers[p].pending >= cap {
    } else if s.req[c][sub] {
      IssueFromKeeps(s, p, c, sub + 1, now, cap);
    } else {
      var s1 := IssueOne(s, p, c, sub, now);
      IssueOneKeeps(s, p, c, sub, now);
      IssueFromKeeps(s1, p, c, sub + 1, now, cap);
      ScheduledTransitive(s, s1, IssueFrom(s1, p, c, sub + 1, now, cap));
    }
  }

  lemma TryChunkKeeps(s: State, p: nat, c: nat, now: nat, cap: nat)
    requires Inv(s) && p < |s.peers| && cap <= 128
    ensures Inv(TryChunk(s, p, c, now, cap)) && Scheduled(s, TryChunk(s, p, c, now, cap))
  {
    if CanIssue(s, p, c) {
      var s1 := s.(chunks := s.chunks[c := Downloading]);
      assert Scheduled(s, s1);
      ScheduledKeeps(s, s1);
      IssueFromKeeps(s1, p, c, 0, now, cap);
      ScheduledTransitive(s, s1, IssueFrom(s1, p, c, 0, now, cap));
    }
  }

  lemma {:induction false} ScheduleListKeeps(s: State, p: nat, list: seq<(nat, nat)>, k: nat, now: nat, cap: nat)
    requires Inv(s) && p < |s.peers| && k <= |list| && cap <= 128
    ensures Inv(ScheduleList(s, p, list, k, now, cap)) && Scheduled(s, ScheduleList(s, p, list, k, now, cap))
    decreases |list| - k, 1
  {
    if k < |list| && s.peers[p].pending < cap {
      TryChunkKeeps(s, p, list[k].1, now, cap);
      ScheduleRestKeeps(s, TryChunk(s, p, list[k].1, now, cap), p, list, k, now, cap);
    }
  }

  lemma {:induction false} ScheduleRestKeeps(s: State, m: State, p: nat, list: seq<(nat, nat)>, k: nat, now: nat,
                                             cap: nat)
    requires Inv(m) && Scheduled(s, m) && p < |m.peers| && k < |list| && cap <= 128
    ensures Inv(ScheduleList(m, p, list, k + 1, now, cap)) && Scheduled(s, ScheduleList(m, p, list, k + 1, now, cap))
    decreases |list| - k, 0
  {
    ScheduleListKeeps(m, p, list, k + 1, now, cap);
    ScheduledTransitive(s, m, ScheduleList(m, p, list, k + 1, now, cap));
  }

  lemma ScheduleForPeerKeeps(s: State, p: nat, now: nat)
    requires Inv(s) && p < |s.peers|
    ensures Inv(ScheduleForPeer(s, p, now)) && Scheduled(s, ScheduleForPeer(s, p, now))
  {
    assert s.peers[p].cap <= 128;
    if s.peers[p].pending < EffectiveCap(s, p) {
      ScheduleListKeeps(s, p, RarestFirst(s, p), 0, now, EffectiveCap(s, p));
    }
  }

  // ---------------------------------------------------------------- rebalancing

  /** Taking (c, begin) from peer q leaves every other sub-block where it was. */
  lemma DropCarries(peers: seq<PeerSlot>, q: nat, after: PeerSlot, c: nat, begin: nat, c': nat, sub': nat)
    requires q < |peers|
    requires (forall x :: Flying(after, x) == if x == c then Flying(peers[q], c) - {begin} else Flying(peers[q], x))
    requires c' != c || BeginOf(sub') != begin
    ensures Carried(peers[q := after], c', sub') <==> Carried(peers, c', sub')
  {
    var r := peers[q := after];
    assert Flying(after, c') == if c' == c then Flying(peers[q], c) - {begin} else Flying(peers[q], c');
    if k :| 0 <= k < |peers| && Carries(peers[k], c', sub') { assert Carries(r[k], c', sub'); }
    if k :| 0 <= k < |r| && Carries(r[k], c', sub') { assert Carries(peers[k], c', sub'); }
  }

  lemma DropDoneCarries(s: State, q: nat, c: nat, begin: nat, c': nat, sub': nat)
    requires Wf(s) && q < |s.peers| && c in s.peers[q].inFlight && begin in s.peers[q].inFlight[c]
    requires c < |s.chunks| && SubOf(begin) < Total(s, c) && s.done[c][SubOf(begin)] && begin % 16384 == 0
    requires c' < |s.chunks| && sub' < |s.done[c']| && !s.done[c'][sub']
    ensures Carried(DropDone(s, q, c, begin).peers, c', sub') <==> Carried(s.peers, c', sub')
  {
    var r := DropDone(s, q, c, begin);
    assert BeginOf(sub') == begin ==> sub' == SubOf(begin);
    DropCarries(s.peers, q, r.peers[q], c, begin, c', sub');
  }

  lemma DropDoneLeavesNoOrphan(s: State, q: nat, c: nat, begin: nat)
    requires Wf(s) && NoOrphans(s) && q < |s.peers| && c in s.peers[q].inFlight && begin in s.peers[q].inFlight[c]
    requires c < |s.chunks| && SubOf(begin) < Total(s, c) && s.done[c][SubOf(begin)] && begin % 16384 == 0
    ensures NoOrphans(DropDone(s, q, c, begin))
  {
    var r := DropDone(s, q, c, begin);
    forall c', sub' | 0 <= c' < |r.chunks| && 0 <= sub' < |r.req[c']| && r.chunks[c'] != Complete && r.req[c'][sub']
      ensures r.done[c'][sub'] || Carried(r.peers, c', sub')
    {
      if !s.done[c'][sub'] { DropDoneCarries(s, q, c, begin, c', sub'); }
    }
  }

  lemma DropDoneKeeps(s: State, q: nat, c: nat, begin: nat)
    requires Inv(s) && q < |s.peers| && c in s.peers[q].inFlight && begin in s.peers[q].inFlight[c]
    requires c < |s.chunks| && SubOf(begin) < Total(s, c) && s.done[c][SubOf(begin)] && begin % 16384 == 0
    ensures Inv(DropDone(s, q, c, begin)) && Scheduled(s, DropDone(s, q, c, begin))
  {
    ScheduledKeeps(s, DropDone(s, q, c, begin));
    DropDoneLeavesNoOrphan(s, q, c, begin);
  }

  /** Moving a request keeps every sub-block in the air that was there, and adds none. */
  lemma PeersMoveCarries(peers: seq<PeerSlot>, q: nat, p: nat, c: nat, begin: nat, c': nat, sub': nat)
    requires p < |peers| && q < |peers| && p != q && c in peers[q].inFlight && begin in peers[q].inFlight[c]
    ensures Carried(peers[q := Yield(peers[q], c, begin)][p := Launch(peers[p], c, begin)], c', sub') <==>
            Carried(peers, c', sub')
  {
    var r := peers[q := Yield(peers[q], c, begin)][p := Launch(peers[p], c, begin)];
    var here := c' == c && BeginOf(sub') == begin;
    if k :| 0 <= k < |peers| && Carries(peers[k], c', sub') {
      assert Carries(r[if here then p else k], c', sub');
    }
    if k :| 0 <= k < |r| && Carries(r[k], c', sub') {
      assert Carries(peers[if here then q else k], c', sub');
    }
  }

  lemma MoveCarries(s: State, q: nat, p: nat, c: nat, begin: nat, now: nat, c': nat, sub': nat)
    requires Wf(s) && p < |s.peers| && q < |s.peers| && p != q
    requires c in s.peers[q].inFlight && begin in s.peers[q].inFlight[c]
    ensures Carried(MoveOne(s, q, p, c, begin, now).peers, c', sub') <==> Carried(s.peers, c', sub')
  {
    PeersMoveCarries(s.peers, q, p, c, begin, c', sub');
  }

  lemma MoveOneLeavesNoOrphan(s: State, q: nat, p: nat, c: nat, begin: nat, now: nat)
    requires Inv(s) && p < |s.peers| && q < |s.peers| && p != q
    requires c in s.peers[q].inFlight && begin in s.peers[q].inFlight[c]
    ensures NoOrphans(MoveOne(s, q, p, c, begin, now))
  {
    var r := MoveOne(s, q, p, c, begin, now);
    forall c', sub' | 0 <= c' < |r.chunks| && 0 <= sub' < |r.req[c']| && r.chunks[c'] != Complete && r.req[c'][sub']
      ensures r.done[c'][sub'] || Carried(r.peers, c', sub')
    {
      MoveCarries(s, q, p, c, begin, now, c', sub');
      if c' == c && sub' == SubOf(begin) {
        assert FlightsInRange(s.subBlocks, |s.chunks|, s.peers[q].inFlight);
        assert Carries(s.peers[q], c, sub');
      }
    }
  }

  lemma MoveOneScheduled(s: State, q: nat, p: nat, c: nat, begin: nat, now: nat)
    requires Wf(s) && p < |s.peers| && q < |s.peers| && p != q
    requires c in s.peers[q].inFlight && begin in s.peers[q].inFlight[c]
    requires c < |s.chunks| && s.chunks[c] != Complete
    ensures Scheduled(s, MoveOne(s, q, p, c, begin, now))
  {
    assert FlightsInRange(s.subBlocks, |s.chunks|, s.peers[q].inFlight);
    assert Justified(s, Request(s.peers[p].slotId, c, begin));
  }

  lemma MoveOneKeeps(s: State, q: nat, p: nat, c: nat, begin: nat, now: nat)
    requires Inv(s) && p < |s.peers| && q < |s.peers| && p != q
    requires c in s.peers[q].inFlight && begin in s.peers[q].inFlight[c]
    requires c < |s.chunks| && s.chunks[c] != Complete
    requires s.peers[p].pending < 128
    ensures Inv(MoveOne(s, q, p, c, begin, now)) && Scheduled(s, MoveOne(s, q, p, c, begin, now))
  {
    MoveOneScheduled(s, q, p, c, begin, now);
    ScheduledKeeps(s, MoveOne(s, q, p, c, begin, now));
    MoveOneLeavesNoOrphan(s, q, p, c, begin, now);
    CountTrueUpdate(s.req[c], SubOf(begin), true);
  }

  lemma {:induction false} ScanSourcesKeeps(s: State, p: nat, c: nat, q: nat, now: nat) returns (r: Scan)
    requires Inv(s) && p < |s.peers| && c < |s.chunks| && q <= |s.peers|
    requires s.chunks[c] != Complete && s.peers[p].pending < 128
    ensures r == ScanSources(s, p, c, q, now)
    ensures Inv(r.s) && Scheduled(s, r.s) && (!r.moved ==> r.s.peers[p] == s.peers[p])
    decreases |s.peers| - q
  {
    if q == |s.peers| {
      r := Scan(s, false);
    } else if !CanYield(s, p, q, c) {
      r := ScanSourcesKeeps(s, p, c, q + 1, now);
    } else {
      var begin := MinOf(Flying(s.peers[q], c));
      assert FlightsInRange(s.subBlocks, |s.chunks|, s.peers[q].inFlight);
      if s.done[c][SubOf(begin)] {
        var s1 := DropDone(s, q, c, begin);
        DropDoneKeeps(s, q, c, begin);
        r := ScanSourcesKeeps(s1, p, c, q + 1, now);
        ScheduledTransitive(s, s1, r.s);
      } else {
        r := Scan(MoveOne(s, q, p, c, begin, now), true);
        MoveOneKeeps(s, q, p, c, begin, now);
      }
    }
  }

  lemma {:induction false} ScanChunksKeeps(s: State, p: nat, k: nat, now: nat) returns (r: Scan)
    requires Inv(s) && p < |s.peers| && k <= |s.active|
    ensures r == ScanChunks(s, p, k, now)
    ensures Inv(r.s) && Scheduled(s, r.s)
    decreases |s.active| - k
  {
    if k == |s.active| || s.peers[p].pending >= s.peers[p].cap {
      r := Scan(s, false);
    } else {
      var c := s.active[k];
      if !Advertises(s.peers[p], c) || s.chunks[c] == Complete {
        r := ScanChunksKeeps(s, p, k + 1, now);
      } else {
        r := ScanSourcesKeeps(s, p, c, 0, now);
        if !r.moved {
          var s1 := r.s;
          r := ScanChunksKeeps(s1, p, k + 1, now);
          ScheduledTransitive(s, s1, r.s);
        }
      }
    }
  }

  lemma MoveLoopNext(s: State, p: nat, now: nat, left: nat, scan: Scan)
    requires Wf(s) && p < |s.peers| && s.peers[p].pending < s.peers[p].cap && left > 0
    requires scan == ScanChunks(s, p, 0, now)
    ensures MoveLoop(s, p, now, left) == if scan.moved then MoveLoop(scan.s, p, now, left - 1) else scan.s
  {
  }

  lemma {:induction false} MoveLoopKeeps(s: State, p: nat, now: nat, left: nat)
    requires Inv(s) && p < |s.peers|
    ensures Inv(MoveLoop(s, p, now, left)) && Scheduled(s, MoveLoop(s, p, now, left))
    decreases left, 1
  {
    if s.peers[p].pending < s.peers[p].cap && left > 0 {
      var r := ScanChunksKeeps(s, p, 0, now);
      MoveLoopNext(s, p, now, left, r);
      if r.moved { MoveLoopRestKeeps(s, r.s, p, now, left); }
    }
  }

  lemma {:induction false} MoveLoopRestKeeps(s: State, m: State, p: nat, now: nat, left: nat)
    requires Inv(s) && p < |s.peers| && Inv(m) && Scheduled(s, m) && left > 0
    ensures Inv(MoveLoop(m, p, now, left - 1)) && Scheduled(s, MoveLoop(m, p, now, left - 1))
    decreases left, 0
  {
    MoveLoopKeeps(m, p, now, left - 1);
    ScheduledTransitive(s, m, MoveLoop(m, p, now, left - 1));
  }

  lemma RebalanceKeeps(s: State, p: nat, now: nat, maxMoves: nat)
    requires Inv(s) && p < |s.peers|
    ensures Inv(Rebalance(s, p, now, maxMoves)) && Scheduled(s, Rebalance(s, p, now, maxMoves))
  {
    if !IsFullSource(s.peers[p], |s.chunks|) {
      MoveLoopKeeps(s, p, now, maxMoves);
    }
  }

  // ---------------------------------------------------------------- endgame and tick

  ghost predicate PeerLaunched(a: PeerSlot, b: PeerSlot) {
    && a.slotId == b.slotId && a.bitfield == b.bitfield && a.cap == b.cap
    && a.choking == b.choking && a.timeouts == b.timeouts
    && (forall c :: Flying(a, c) <= Flying(b, c))
  }

  /** r is s with some more justified requests in the air. */
  ghost predicate Launched(s: State, r: State) {
    && |r.peers| == |s.peers|
    && (forall p :: 0 <= p < |s.peers| ==> PeerLaunched(s.peers[p], r.peers[p]))
    && r.chunks == s.chunks && r.subBlocks == s.subBlocks && r.availability == s.availability && r.active == s.active
    && r.done == s.done && r.req == s.req && r.reqTime == s.reqTime
    && r.doneCount == s.doneCount && r.reqCount == s.reqCount && r.phase == s.phase && r.missing == s.missing
    && r.localSpeed == s.localSpeed && r.canCancel == s.canCancel && r.canDecline == s.canDecline
    && CallsJustified(s, r)
  }

  lemma LaunchedTransitive(a: State, b: State, c: State)
    requires Launched(a, b) && Launched(b, c)
    ensures Launched(a, c)
  {
    forall p | 0 <= p < |a.peers| ensures PeerLaunched(a.peers[p], c.peers[p]) {
      assert PeerLaunched(a.peers[p], b.peers[p]) && PeerLaunched(b.peers[p], c.peers[p]);
    }
    forall i | |a.effects| <= i < |c.effects| ensures Justified(a, c.effects[i]) {
      assert i >= |b.effects| ==> Justified(b, c.effects[i]);
    }
  }

  lemma LaunchedLeavesNoOrphan(s: State, r: State)
    requires Wf(s) && Wf(r) && NoOrphans(s) && Launched(s, r)
    ensures NoOrphans(r)
  {
    forall c, sub | 0 <= c < |r.chunks| && 0 <= sub < |r.req[c]| && r.chunks[c] != Complete && r.req[c][sub]
      ensures r.done[c][sub] || Carried(r.peers, c, sub)
    {
      if !s.done[c][sub] {
        assert forall p :: 0 <= p < |s.peers| ==> PeerLaunched(s.peers[p], r.peers[p]);
        CarriedGrows(s.peers, r.peers, c, sub);
      }
    }
  }

  /** Outside the normal phase, more requests in the air break nothing. */
  lemma LaunchedKeeps(s: State, r: State)
    requires Inv(s) && Wf(r) && Launched(s, r) && s.phase != Normal
    ensures Inv(r) && Scheduled(s, r)
  {
    assert forall p :: 0 <= p < |s.peers| ==> PeerLaunched(s.peers[p], r.peers[p]);
    ScheduledKeeps(s, r);
    LaunchedLeavesNoOrphan(s, r);
  }

  lemma SendToLaunches(s: State, slot: nat, c: nat, sub: nat)
    requires Wf(s) && c < |s.chunks| && sub < Total(s, c) && s.chunks[c] != Complete
    ensures Launched(s, SendTo(s, slot, c, sub))
  {
    assert BeginOf(sub) % 16384 == 0 && SubOf(BeginOf(sub)) == sub;
    assert Justified(s, Request(slot, c, BeginOf(sub)));
    match FindSlot(s.peers, slot)
    case None =>
    case Some(p) => LaunchLaunches(s.peers[p], c, BeginOf(sub));
  }

  lemma LaunchLaunches(peer: PeerSlot, c: nat, begin: nat)
    ensures PeerLaunched(peer, Launch(peer, c, begin))
  {
  }

  lemma {:induction false} SendRedundantLaunches(s: State, c: nat, sub: nat, slots: seq<(nat, nat)>, k: nat)
    returns (r: State)
    requires Wf(s) && c < |s.chunks| && sub < Total(s, c) && k <= |slots| && s.chunks[c] != Complete
    ensures r == SendRedundant(s, c, sub, slots, k) && Launched(s, r)
    decreases |slots| - k
  {
    r := s;
    if k < |slots| {
      var s1 := SendTo(s, slots[k].1, c, sub);
      SendToLaunches(s, slots[k].1, c, sub);
      r := SendRedundantLaunches(s1, c, sub, slots, k + 1);
      LaunchedTransitive(s, s1, r);
    }
  }

  lemma {:induction false} RescueFromLaunches(s: State, c: nat, primary: nat, hunger: nat, sub: nat, now: nat,
                                              hungry: bool)
    returns (r: Rescued)
    requires Wf(s) && c < |s.chunks| && s.chunks[c] != Complete
    ensures r == RescueFrom(s, c, primary, hunger, sub, now, hungry) && Launched(s, r.s)
    decreases Total(s, c) - sub, 1
  {
    if sub >= Total(s, c) {
      r := Rescued(s, hungry);
    } else if !Overdue(s, c, sub, now, hunger) {
      r := RescueFromLaunches(s, c, primary, hunger, sub + 1, now, hungry);
    } else {
      var s1 := SendRedundantLaunches(s, c, sub, RedundantPeers(s.peers, c, primary), 0);
      r := RescueRestLaunches(s, s1, c, primary, hunger, sub, now);
    }
  }

  lemma {:induction false} RescueRestLaunches(s: State, m: State, c: nat, primary: nat, hunger: nat, sub: nat, now: nat)
    returns (r: Rescued)
    requires Wf(m) && Launched(s, m) && c < |m.chunks| && m.chunks[c] != Complete && sub < Total(m, c)
    ensures r == RescueFrom(m, c, primary, hunger, sub + 1, now, true) && Launched(s, r.s)
    decreases Total(m, c) - sub, 0
  {
    r := RescueFromLaunches(m, c, primary, hunger, sub + 1, now, true);
    LaunchedTransitive(s, m, r.s);
  }

  ghost predicate ListsUnfinished(chunks: seq<ChunkState>, list: seq<(nat, nat)>) {
    ChunksWithin(list, |chunks|) && forall i :: 0 <= i < |list| ==> chunks[list[i].1] != Complete
  }

  /** What the endgame does for one chunk. */
  function Rescue(s: State, c: nat, now: nat): Rescued
    requires Wf(s) && c < |s.chunks|
  {
    var primary := Primary(s.peers, c);
    RescueFrom(s, c, primary, HungerMs(s.peers, primary), 0, now, false)
  }

  lemma RescueLaunches(s: State, c: nat, now: nat)
    requires Wf(s) && c < |s.chunks| && s.chunks[c] != Complete
    ensures Wf(Rescue(s, c, now).s) && Launched(s, Rescue(s, c, now).s)
  {
    var primary := Primary(s.peers, c);
    var r := RescueFromLaunches(s, c, primary, HungerMs(s.peers, primary), 0, now, false);
  }

  /** The chunks that the pass looks at, one by one, and what it has become of s by then. */
  lemma {:induction false} EndgameListLaunches(s: State, list: seq<(nat, nat)>, k: nat, processed: nat, now: nat)
    requires Wf(s) && k <= |list| && ListsUnfinished(s.chunks, list)
    ensures Launched(s, EndgameList(s, list, k, processed, now))
    decreases |list| - k, 1
  {
    if k == |list| || processed >= MAX_ENDGAME_CHUNKS {
    } else if Total(s, list[k].1) == 0 {
      EndgameListLaunches(s, list, k + 1, processed, now);
    } else {
      RescueThenLaunches(s, list, k, processed, now);
    }
  }

  lemma {:induction false} RescueThenLaunches(s: State, list: seq<(nat, nat)>, k: nat, processed: nat, now: nat)
    requires Wf(s) && k < |list| && ListsUnfinished(s.chunks, list) && Total(s, list[k].1) != 0
    requires processed < MAX_ENDGAME_CHUNKS
    ensures Launched(s, EndgameList(s, list, k, processed, now))
    decreases |list| - k, 0
  {
    var r := Rescue(s, list[k].1, now);
    RescueLaunches(s, list[k].1, now);
    var processed1 := if r.hungry then processed + 1 else processed;
    EndgameListLaunches(r.s, list, k + 1, processed1, now);
    LaunchedTransitive(s, r.s, EndgameList(r.s, list, k + 1, processed1, now));
    EndgameListNext(s, list, k, processed, now, r, processed1);
  }

  lemma EndgameListNext(s: State, list: seq<(nat, nat)>, k: nat, processed: nat, now: nat, r: Rescued, processed1: nat)
    requires Wf(s) && k < |list| && ListsUnfinished(s.chunks, list) && Total(s, list[k].1) != 0
    requires processed < MAX_ENDGAME_CHUNKS && r == Rescue(s, list[k].1, now)
    requires processed1 == if r.hungry then processed + 1 else processed
    ensures EndgameList(s, list, k, processed, now) == EndgameList(r.s, list, k + 1, processed1, now)
  {
  }

  lemma {:induction false} DownloadingUnfinished(s: State, k: nat)
    requires Wf(s) && k <= |s.active|
    ensures forall x | x in DownloadingOf(s, k) :: x.1 < |s.chunks| && s.chunks[x.1] == Downloading
  {
    if k > 0 { DownloadingUnfinished(s, k - 1); }
  }

  lemma EndgameOrderUnfinished(s: State)
    requires Wf(s)
    ensures forall i :: 0 <= i < |EndgameOrder(s)| ==> s.chunks[EndgameOrder(s)[i].1] == Downloading
  {
    DownloadingUnfinished(s, |s.active|);
    var list := DownloadingOf(s, |s.active|);
    StableSortPermutes(list, ByFirst);
    assert forall i :: 0 <= i < |EndgameOrder(s)| ==> EndgameOrder(s)[i] in EndgameOrder(s);
  }

  lemma {:induction false} RebalanceFromKeeps(s: State, p: nat, now: nat)
    requires Inv(s) && p <= |s.peers|
    ensures Inv(RebalanceFrom(s, p, now)) && Scheduled(s, RebalanceFrom(s, p, now))
    decreases |s.peers| - p
  {
    if p < |s.peers| {
      var s1 := Rebalance(s, p, now, 4);
      RebalanceKeeps(s, p, now, 4);
      RebalanceFromKeeps(s1, p + 1, now);
      ScheduledTransitive(s, s1, RebalanceFrom(s1, p + 1, now));
    }
  }

  lemma {:induction false} ScheduleAllFromKeeps(s: State, p: nat, now: nat)
    requires Inv(s) && p <= |s.peers|
    ensures Inv(ScheduleAllFrom(s, p, now)) && Scheduled(s, ScheduleAllFrom(s, p, now))
    decreases |s.peers| - p
  {
    if p < |s.peers| {
      var s1 := ScheduleForPeer(s, p, now);
      ScheduleForPeerKeeps(s, p, now);
      ScheduleAllFromKeeps(s1, p + 1, now);
      ScheduledTransitive(s, s1, ScheduleAllFrom(s1, p + 1, now));
    }
  }

  lemma TickKeeps(s: State, now: nat)
    requires Inv(s)
    ensures Inv(Tick(s, now)) && Scheduled(s, Tick(s, now))
  {
    if s.phase != Done {
      var s1 := RebalanceFrom(s, 0, now);
      RebalanceFromKeeps(s, 0, now);
      var s2 := ScheduleAllFrom(s1, 0, now);
      ScheduleAllFromKeeps(s1, 0, now);
      ScheduledTransitive(s, s1, s2);
      if s2.phase == Endgame {
        EndgameOrderUnfinished(s2);
        EndgameListLaunches(s2, EndgameOrder(s2), 0, 0, now);
        LaunchedKeeps(s2, TickEndgame(s2, now));
        ScheduledTransitive(s, s2, TickEndgame(s2, now));
      }
    }
  }
}
