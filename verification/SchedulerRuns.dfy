/** Every handler keeps the invariant, so it holds after any sequence of events. */
module SchedulerRuns {
  import opened Counting
  import opened SchedulerModel
  import opened SchedulerInvariant

  // ---------------------------------------------------------------- advertisers

  lemma {:induction false} AdvertisersConcat(a: seq<PeerSlot>, b: seq<PeerSlot>, c: nat)
    ensures Advertisers(a + b, c) == Advertisers(a, c) + Advertisers(b, c)
  {
    if |b| == 0 {
      assert a + b == a;
    } else {
      assert (a + b)[..|a + b| - 1] == a + b[..|b| - 1];
      AdvertisersConcat(a, b[..|b| - 1], c);
    }
  }

  lemma AdvertisersSplit(peers: seq<PeerSlot>, p: nat, c: nat)
    requires p < |peers|
    ensures Advertisers(peers, c) ==
            Advertisers(peers[..p] + peers[p + 1..], c) + (if Advertises(peers[p], c) then 1 else 0)
  {
    assert peers == peers[..p] + ([peers[p]] + peers[p + 1..]);
    AdvertisersConcat(peers[..p], [peers[p]] + peers[p + 1..], c);
    AdvertisersConcat([peers[p]], peers[p + 1..], c);
    AdvertisersConcat(peers[..p], peers[p + 1..], c);
    assert Advertisers([peers[p]], c) == if Advertises(peers[p], c) then 1 else 0;
  }

  lemma AdvertisersUpdate(peers: seq<PeerSlot>, p: nat, peer: PeerSlot, c: nat)
    requires p < |peers|
    ensures Advertisers(peers[p := peer], c) ==
            Advertisers(peers, c) - (if Advertises(peers[p], c) then 1 else 0) + (if Advertises(peer, c) then 1 else 0)
  {
    AdvertisersSplit(peers, p, c);
    AdvertisersSplit(peers[p := peer], p, c);
    assert peers[p := peer][..p] + peers[p := peer][p + 1..] == peers[..p] + peers[p + 1..];
  }

  // ---------------------------------------------------------------- peer events

  /** Events that leave completion alone: what they can change. */
  ghost predicate NetFrame(s: State, r: State) {
    && |r.chunks| == |s.chunks|
    && (forall c :: 0 <= c < |s.chunks| ==> (r.chunks[c] == Complete <==> s.chunks[c] == Complete))
    && r.subBlocks == s.subBlocks
    && r.missing == s.missing
    && r.phase == s.phase
    && CallsJustified(s, r)
  }

  lemma NetFrameTransitive(a: State, b: State, c: State)
    requires NetFrame(a, b) && NetFrame(b, c)
    ensures NetFrame(a, c)
  {
    forall i | |a.effects| <= i < |c.effects| ensures Justified(a, c.effects[i]) {
      assert i >= |b.effects| ==> Justified(b, c.effects[i]);
    }
  }

  lemma CheckInterestKeeps(s: State, slot: nat)
    requires Inv(s)
    ensures Inv(CheckInterest(s, slot)) && Scheduled(s, CheckInterest(s, slot))
  {
    assert Justified(s, NotInterested(slot));
  }

  /** Replacing a peer's bitfield while availability keeps pace. */
  lemma BitfieldUpdateKeeps(s: State, p: nat, bits: seq<bool>, availability: seq<nat>)
    requires Inv(s) && p < |s.peers| && |availability| == |s.availability|
    requires forall c :: 0 <= c < |availability| ==>
      availability[c] >= s.availability[c]
      && ((c < |bits| && bits[c]) && !Advertises(s.peers[p], c) ==> availability[c] >= s.availability[c] + 1)
    ensures var r := s.(peers := s.peers[p := s.peers[p].(bitfield := bits)], availability := availability);
            Inv(r) && NetFrame(s, r)
  {
    var r := s.(peers := s.peers[p := s.peers[p].(bitfield := bits)], availability := availability);
    forall c | 0 <= c < |availability|
      ensures Advertisers(r.peers, c) <= availability[c]
    {
      AdvertisersUpdate(s.peers, p, r.peers[p], c);
    }
    forall c', sub' | 0 <= c' < |r.chunks| && 0 <= sub' < |r.req[c']| && r.chunks[c'] != Complete && r.req[c'][sub']
      ensures r.done[c'][sub'] || Carried(r.peers, c', sub')
    {
      if !s.done[c'][sub'] { CarriedGrows(s.peers, r.peers, c', sub'); }
    }
  }

  lemma OnBitfieldKeeps(s: State, slot: nat, bits: seq<bool>, now: nat)
    requires Inv(s)
    ensures Inv(OnBitfield(s, slot, bits, now)) && NetFrame(s, OnBitfield(s, slot, bits, now))
  {
    match FindSlot(s.peers, slot)
    case None =>
    case Some(p) =>
      var s1 := s.(peers := s.peers[p := s.peers[p].(bitfield := bits)],
                   availability := AddBits(s.availability, bits));
      BitfieldUpdateKeeps(s, p, bits, AddBits(s.availability, bits));
      var s2 := CheckInterest(s1, slot);
      CheckInterestKeeps(s1, slot);
      RebalanceKeeps(s2, p, now, 16);
      NetFrameTransitive(s, s1, s2);
      NetFrameTransitive(s, s2, Rebalance(s2, p, now, 16));
  }

  lemma NoteHaveKeeps(s: State, p: nat, c: nat)
    requires Inv(s) && p < |s.peers| && c < |s.peers[p].bitfield|
    ensures Inv(NoteHave(s, p, c)) && NetFrame(s, NoteHave(s, p, c))
  {
    if !s.peers[p].bitfield[c] {
      BitfieldUpdateKeeps(s, p, s.peers[p].bitfield[c := true], NoteHave(s, p, c).availability);
    }
  }

  lemma OnHaveKeeps(s: State, slot: nat, c: nat, now: nat)
    requires Inv(s)
    ensures Inv(OnHave(s, slot, c, now)) && NetFrame(s, OnHave(s, slot, c, now))
  {
    match FindSlot(s.peers, slot)
    case None =>
    case Some(p) =>
      if c < |s.peers[p].bitfield| {
        var s1 := NoteHave(s, p, c);
        NoteHaveKeeps(s, p, c);
        var s2 := CheckInterest(s1, slot);
        CheckInterestKeeps(s1, slot);
        RebalanceKeeps(s2, p, now, 8);
        NetFrameTransitive(s, s1, s2);
        NetFrameTransitive(s, s2, Rebalance(s2, p, now, 8));
      }
  }

  lemma OnPeerAddedKeeps(s: State, slot: nat, speed: nat)
    requires Inv(s) && FindSlot(s.peers, slot).None?
    ensures Inv(OnPeerAdded(s, slot, speed)) && NetFrame(s, OnPeerAdded(s, slot, speed))
  {
    var r := OnPeerAdded(s, slot, speed);
    var peer := NewPeer(slot, speed, |s.availability|);
    forall c | 0 <= c < |s.availability|
      ensures Advertisers(r.peers, c) == Advertisers(s.peers, c)
    {
      AdvertisersConcat(s.peers, [peer], c);
      assert Advertisers([peer], c) == 0;
    }
    forall c', sub' | 0 <= c' < |r.chunks| && 0 <= sub' < |r.req[c']| && r.chunks[c'] != Complete && r.req[c'][sub']
      ensures r.done[c'][sub'] || Carried(r.peers, c', sub')
    {
      if !s.done[c'][sub'] {
        var p :| 0 <= p < |s.peers| && Carries(s.peers[p], c', sub');
        assert Carries(r.peers[p], c', sub');
      }
    }
  }

  /** Changing a peer's speed, choke flag or tuning. */
  lemma PeerUpdateKeeps(s: State, slot: nat, f: PeerSlot -> PeerSlot)
    requires Inv(s)
    requires forall peer :: f(peer).inFlight == peer.inFlight && f(peer).slotId == peer.slotId
                            && f(peer).bitfield == peer.bitfield && f(peer).pending == peer.pending
                            && (peer.cap <= 128 ==> f(peer).cap <= 128)
    ensures Inv(UpdatePeer(s, slot, f)) && NetFrame(s, UpdatePeer(s, slot, f))
  {
    match FindSlot(s.peers, slot)
    case None =>
    case Some(p) =>
      var r := UpdatePeer(s, slot, f);
      forall c | 0 <= c < |s.availability|
        ensures Advertisers(r.peers, c) == Advertisers(s.peers, c)
      {
        AdvertisersSame(r.peers, s.peers, c);
      }
      forall c', sub' | 0 <= c' < |r.chunks| && 0 <= sub' < |r.req[c']| && r.chunks[c'] != Complete && r.req[c'][sub']
        ensures r.done[c'][sub'] || Carried(r.peers, c', sub')
      {
        if !s.done[c'][sub'] { CarriedGrows(s.peers, r.peers, c', sub'); }
      }
  }

  lemma ReleaseKeepsCounters(s: State, m: map<nat, set<nat>>, c: nat)
    requires Wf(s) && c < |s.chunks| && s.reqCount[c] <= CountTrue(s.req[c])
    ensures ReleasedCount(s, m, c) <= CountTrue(ReleasedRow(s, m, c))
  {
    if c in m {
      CountTrueMonotone(ClearBits(s.req[c], m[c]), s.req[c]);
    }
  }

  /** A sub-block the departing peer does not carry is carried by one of those that stay. */
  lemma CarriedByOthers(peers: seq<PeerSlot>, p: nat, c: nat, sub: nat)
    requires p < |peers| && Carried(peers, c, sub) && !Carries(peers[p], c, sub)
    ensures Carried(peers[..p] + peers[p + 1..], c, sub)
  {
    var k :| 0 <= k < |peers| && Carries(peers[k], c, sub);
    var rest := peers[..p] + peers[p + 1..];
    assert rest[if k < p then k else k - 1] == peers[k];
  }

  lemma RemovalLeavesNoOrphan(s: State, p: nat)
    requires Inv(s) && p < |s.peers|
    ensures NoOrphans(WithoutPeer(s, p))
  {
    var r := WithoutPeer(s, p);
    forall c, sub | 0 <= c < |r.chunks| && 0 <= sub < |r.req[c]| && r.chunks[c] != Complete && r.req[c][sub]
      ensures r.done[c][sub] || Carried(r.peers, c, sub)
    {
      assert s.req[c][sub] && !Carries(s.peers[p], c, sub);
      if !s.done[c][sub] { CarriedByOthers(s.peers, p, c, sub); }
    }
  }

  lemma RemovalKeepsCounts(s: State, p: nat)
    requires Inv(s) && p < |s.peers|
    ensures CountersSound(WithoutPeer(s, p))
    ensures AvailabilityCovers(WithoutPeer(s, p).availability, WithoutPeer(s, p).peers)
  {
    var r := WithoutPeer(s, p);
    forall c | 0 <= c < |s.chunks|
      ensures Advertisers(r.peers, c) <= r.availability[c] && r.reqCount[c] <= CountTrue(r.req[c])
    {
      AdvertisersSplit(s.peers, p, c);
      assert Advertisers(s.peers, c) <= s.availability[c];
      ReleaseKeepsCounters(s.(availability := SubBits(s.availability, s.peers[p])), s.peers[p].inFlight, c);
    }
  }

  lemma WithoutPeerKeeps(s: State, p: nat)
    requires Inv(s) && p < |s.peers|
    ensures Inv(WithoutPeer(s, p)) && NetFrame(s, WithoutPeer(s, p))
  {
    RemovalKeepsCounts(s, p);
    RemovalLeavesNoOrphan(s, p);
  }

  lemma LandingLeavesNoOrphan(s: State, p: nat, c: nat, begin: nat, c': nat, sub': nat)
    requires Wf(s) && NoOrphans(s) && p < |s.peers|
    requires c' < |s.chunks| && sub' < |s.req[c']| && s.chunks[c'] != Complete && s.req[c'][sub']
    ensures var r := Landed(s, p, c, begin); r.done[c'][sub'] || Carried(r.peers, c', sub')
  {
    var r := Landed(s, p, c, begin);
    if !r.done[c'][sub'] {
      assert SubOf(BeginOf(sub')) == sub';
      assert Carried(s.peers, c', sub');
      DropCarries(s.peers, p, r.peers[p], c, begin, c', sub');
    }
  }

  lemma LandedKeeps(s: State, p: nat, c: nat, begin: nat)
    requires Inv(s) && p < |s.peers|
    ensures Inv(Landed(s, p, c, begin)) && NetFrame(s, Landed(s, p, c, begin))
  {
    var r := Landed(s, p, c, begin);
    forall c' | 0 <= c' < |s.availability|
      ensures Advertisers(r.peers, c') == Advertisers(s.peers, c')
    {
      AdvertisersSame(r.peers, s.peers, c');
    }
    if c < |s.done| && SubOf(begin) < |s.done[c]| {
      CountTrueUpdate(s.done[c], SubOf(begin), true);
    }
    forall c', sub' | 0 <= c' < |r.chunks| && 0 <= sub' < |r.req[c']| && r.chunks[c'] != Complete && r.req[c'][sub']
      ensures r.done[c'][sub'] || Carried(r.peers, c', sub')
    {
      LandingLeavesNoOrphan(s, p, c, begin, c', sub');
    }
  }

  lemma OnPieceKeeps(s: State, slot: nat, c: nat, begin: nat, now: nat)
    requires Inv(s)
    ensures Inv(OnPiece(s, slot, c, begin, now)) && NetFrame(s, OnPiece(s, slot, c, begin, now))
  {
    match FindSlot(s.peers, slot)
    case None =>
    case Some(p) =>
      if s.peers[p].pending > 0 {
        LandedKeeps(s, p, c, begin);
        var s1 := Landed(s, p, c, begin);
        if s1.phase != Done {
          ScheduleForPeerKeeps(s1, p, now);
          NetFrameTransitive(s, s1, ScheduleForPeer(s1, p, now));
        }
      }
  }

  lemma OnTimeoutKeeps(s: State, c: nat, begin: nat)
    requires Inv(s)
    ensures Inv(OnTimeout(s, c, begin)) && NetFrame(s, OnTimeout(s, c, begin))
  {
    if c < |s.chunks| && SubOf(begin) < Total(s, c) {
      CountTrueUpdate(s.req[c], SubOf(begin), false);
    }
  }

  // ---------------------------------------------------------------- completion events

  /** Chunks that are not COMPLETE. */
  function Unfinished(chunks: seq<ChunkState>): (n: nat)
    ensures n <= |chunks|
  {
    if |chunks| == 0 then 0
    else Unfinished(chunks[..|chunks| - 1]) + (if chunks[|chunks| - 1] == Complete then 0 else 1)
  }

  lemma {:induction false} UnfinishedUpdate(chunks: seq<ChunkState>, c: nat, st: ChunkState)
    requires c < |chunks|
    ensures Unfinished(chunks[c := st]) ==
            Unfinished(chunks) - (if chunks[c] == Complete then 0 else 1) + (if st == Complete then 0 else 1)
  {
    var last := |chunks| - 1;
    if c == last {
      assert chunks[c := st][..last] == chunks[..last];
    } else {
      assert chunks[c := st][..last] == chunks[..last][c := st];
      UnfinishedUpdate(chunks[..last], c, st);
    }
  }

  lemma {:induction false} UnfinishedSame(a: seq<ChunkState>, b: seq<ChunkState>)
    requires |a| == |b|
    requires forall c :: 0 <= c < |a| ==> (a[c] == Complete <==> b[c] == Complete)
    ensures Unfinished(a) == Unfinished(b)
  {
    if |a| > 0 { UnfinishedSame(a[..|a| - 1], b[..|a| - 1]); }
  }

  lemma {:induction false} UnfinishedZero(chunks: seq<ChunkState>)
    ensures Unfinished(chunks) == 0 <==> forall c :: 0 <= c < |chunks| ==> chunks[c] == Complete
  {
    if |chunks| > 0 {
      var init := chunks[..|chunks| - 1];
      UnfinishedZero(init);
      assert forall c :: 0 <= c < |init| ==> init[c] == chunks[c];
    }
  }

  ghost predicate MissingExact(s: State) { s.missing == Unfinished(s.chunks) }

  lemma SwapRemoveExact(chunks: seq<ChunkState>, active: seq<nat>, c: nat)
    requires ActiveExact(chunks, active) && c < |chunks|
    ensures ActiveExact(chunks[c := Complete], SwapRemove(active, c))
  {
    var r := SwapRemove(active, c);
    match FirstIndex(active, c)
    case None =>
    case Some(k) =>
      var last := |active| - 1;
      assert forall x: nat :: x in r ==> x in active && x != c by {
        forall x: nat | x in r ensures x in active && x != c {
          var i :| 0 <= i < |r| && r[i] == x;
          assert r[i] == if i == k then active[last] else active[i];
        }
      }
      assert forall x: nat :: x in active && x != c ==> x in r by {
        forall x: nat | x in active && x != c ensures x in r {
          var i :| 0 <= i < |active| && active[i] == x;
          if i == last { assert r[k] == x; } else { assert r[i] == x; }
        }
      }
  }

  lemma CancelAtLeavesNoOrphan(s: State, c: nat, winner: nat, p: nat)
    requires Inv(s) && p < |s.peers| && (c < |s.chunks| ==> s.chunks[c] == Complete)
    ensures NoOrphans(CancelAt(s, c, winner, p))
  {
    var r := CancelAt(s, c, winner, p);
    forall c', sub' | 0 <= c' < |r.chunks| && 0 <= sub' < |r.req[c']| && r.chunks[c'] != Complete && r.req[c'][sub']
      ensures r.done[c'][sub'] || Carried(r.peers, c', sub')
    {
      if !s.done[c'][sub'] {
        var q :| 0 <= q < |s.peers| && Carries(s.peers[q], c', sub');
        assert Carries(r.peers[q], c', sub');
      }
    }
  }

  lemma CancelAtKeeps(s: State, c: nat, winner: nat, p: nat)
    requires Inv(s) && p < |s.peers| && (c < |s.chunks| ==> s.chunks[c] == Complete)
    ensures Inv(CancelAt(s, c, winner, p))
  {
    var r := CancelAt(s, c, winner, p);
    forall c' | 0 <= c' < |s.availability|
      ensures Advertisers(r.peers, c') == Advertisers(s.peers, c')
    {
      AdvertisersSame(r.peers, s.peers, c');
    }
    CancelAtLeavesNoOrphan(s, c, winner, p);
  }

  lemma {:induction false} CancelKeeps(s: State, c: nat, winner: nat, p: nat)
    requires Inv(s) && p <= |s.peers| && (c < |s.chunks| ==> s.chunks[c] == Complete)
    ensures Inv(CancelFrom(s, c, winner, p))
    decreases |s.peers| - p
  {
    if p < |s.peers| {
      CancelAtKeeps(s, c, winner, p);
      CancelKeeps(CancelAt(s, c, winner, p), c, winner, p + 1);
    }
  }

  /** r continues s's effects without sending a request. */
  ghost predicate SendsNoRequest(s: State, r: State) {
    && s.effects <= r.effects
    && (forall i :: |s.effects| <= i < |r.effects| ==> !r.effects[i].Request?)
  }

  lemma CancelAtSendsNoRequest(s: State, c: nat, winner: nat, p: nat)
    requires Wf(s) && p < |s.peers|
    ensures SendsNoRequest(s, CancelAt(s, c, winner, p))
  {
  }

  /** Cancelling touches nothing but peers and effects. */
  lemma {:induction false} CancelFrame(s: State, c: nat, winner: nat, p: nat) returns (r: State)
    requires Wf(s) && p <= |s.peers|
    ensures r == CancelFrom(s, c, winner, p) && SendsNoRequest(s, r)
    ensures r.chunks == s.chunks && r.missing == s.missing && r.subBlocks == s.subBlocks && r.phase == s.phase
    decreases |s.peers| - p
  {
    r := s;
    if p < |s.peers| {
      CancelAtSendsNoRequest(s, c, winner, p);
      r := CancelFrame(CancelAt(s, c, winner, p), c, winner, p + 1);
    }
  }

  lemma FinishedKeeps(s: State, c: nat)
    requires Inv(s) && c < |s.chunks|
    ensures Inv(Finished(s, c))
  {
    SwapRemoveExact(s.chunks, s.active, c);
  }

  lemma CompleteOneKeeps(s: State, msg: Completion) returns (r: State)
    requires Inv(s) && msg.chunk < |s.chunks|
    ensures r == CompleteOne(s, msg) && Inv(r) && SendsNoRequest(s, r)
    ensures r.chunks == s.chunks[msg.chunk := Complete] && r.missing == Dec32(s.missing)
    ensures r.subBlocks == s.subBlocks && r.phase == s.phase
  {
    var s1 := Finished(s, msg.chunk);
    FinishedKeeps(s, msg.chunk);
    CancelKeeps(s1, msg.chunk, msg.winner, 0);
    var s2 := CancelFrame(s1, msg.chunk, msg.winner, 0);
    r := CompleteOne(s, msg);
  }

  /** All messages name different chunks, none of them COMPLETE yet. */
  ghost predicate FreshCompletions(chunks: seq<ChunkState>, msgs: seq<Completion>, k: nat) {
    && (forall i :: k <= i < |msgs| ==> msgs[i].chunk < |chunks| && chunks[msgs[i].chunk] != Complete)
    && (forall i, j :: k <= i < j < |msgs| ==> msgs[i].chunk != msgs[j].chunk)
  }

  /** The chunks named by msgs[k..]. */
  function Named(msgs: seq<Completion>, k: nat): set<nat>
    requires k <= |msgs|
    decreases |msgs| - k
  {
    if k == |msgs| then {} else {msgs[k].chunk} + Named(msgs, k + 1)
  }

  lemma {:induction false} CompleteFromKeeps(s: State, msgs: seq<Completion>, k: nat) returns (r: State)
    requires Inv(s) && k <= |msgs|
    requires forall i :: 0 <= i < |msgs| ==> msgs[i].chunk < |s.chunks|
    ensures r == CompleteFrom(s, msgs, k)
    ensures Inv(r) && SendsNoRequest(s, r) && r.subBlocks == s.subBlocks && r.phase == s.phase
    ensures |r.chunks| == |s.chunks|
    ensures forall c :: 0 <= c < |s.chunks| ==> r.chunks[c] == if c in Named(msgs, k) then Complete else s.chunks[c]
    decreases |msgs| - k
  {
    r := s;
    if k < |msgs| {
      var s1 := CompleteOneKeeps(s, msgs[k]);
      r := CompleteFromKeeps(s1, msgs, k + 1);
    }
  }

  lemma {:induction false} CompleteFromMissing(s: State, msgs: seq<Completion>, k: nat)
    requires Inv(s) && k <= |msgs| && MissingExact(s)
    requires forall i :: 0 <= i < |msgs| ==> msgs[i].chunk < |s.chunks|
    requires FreshCompletions(s.chunks, msgs, k)
    ensures MissingExact(CompleteFrom(s, msgs, k))
    decreases |msgs| - k
  {
    if k < |msgs| {
      var s1 := CompleteOneKeeps(s, msgs[k]);
      UnfinishedUpdate(s.chunks, msgs[k].chunk, Complete);
      CompleteFromMissing(s1, msgs, k + 1);
    }
  }

  lemma ProcessCompletionsKeeps(s: State, msgs: seq<Completion>)
    requires Inv(s)
    requires forall i :: 0 <= i < |msgs| ==> msgs[i].chunk < |s.chunks|
    ensures var r := ProcessCompletions(s, msgs);
            && Inv(r) && SendsNoRequest(s, r) && r.subBlocks == s.subBlocks && |r.chunks| == |s.chunks|
            && (forall c :: 0 <= c < |s.chunks| ==>
                  r.chunks[c] == if c in Named(msgs, 0) then Complete else s.chunks[c])
  {
    var r := CompleteFromKeeps(s, msgs, 0);
  }

  lemma VerifyFailedKeeps(s: State, c: nat)
    requires Inv(s) && c < |s.chunks|
    ensures Inv(VerifyFailed(s, c)) && VerifyFailed(s, c).effects == s.effects
  {
    CountTrueZero(Falses(s.req[c]));
    CountTrueZero(Falses(s.done[c]));
    var r := VerifyFailed(s, c);
    assert forall x: nat :: x in r.active <==> x in s.active || x == c;
  }

  lemma MarkOneKeeps(s: State, c: nat)
    requires Inv(s) && c < |s.chunks|
    ensures Inv(MarkOne(s, c))
    ensures MarkOne(s, c).chunks == s.chunks[c := Complete]
  {
    SwapRemoveExact(s.chunks, s.active, c);
  }

  lemma {:induction false} MarkFromInv(s: State, bits: seq<bool>, k: nat)
    requires Inv(s)
    ensures Inv(MarkFrom(s, bits, k))
    decreases |bits| - k
  {
    if k < |bits| && k < |s.chunks| {
      if bits[k] { MarkOneKeeps(s, k); }
      MarkFromInv(if bits[k] then MarkOne(s, k) else s, bits, k + 1);
    }
  }

  lemma {:induction false} MarkFromMarks(s: State, bits: seq<bool>, k: nat)
    requires Wf(s)
    ensures var r := MarkFrom(s, bits, k);
            && r.effects == s.effects && r.subBlocks == s.subBlocks && r.phase == s.phase
            && (forall c :: 0 <= c < |s.chunks| ==>
                  r.chunks[c] == if k <= c < |bits| && bits[c] then Complete else s.chunks[c])
    decreases |bits| - k
  {
    if k < |bits| && k < |s.chunks| { MarkFromMarks(if bits[k] then MarkOne(s, k) else s, bits, k + 1); }
  }

  lemma MarkFromKeeps(s: State, bits: seq<bool>, k: nat)
    requires Inv(s)
    ensures var r := MarkFrom(s, bits, k);
            && Inv(r) && r.effects == s.effects && r.subBlocks == s.subBlocks && r.phase == s.phase
            && (forall c :: 0 <= c < |s.chunks| ==>
                  r.chunks[c] == if k <= c < |bits| && bits[c] then Complete else s.chunks[c])
  {
    MarkFromInv(s, bits, k);
    MarkFromMarks(s, bits, k);
  }
}
