/** The scheduler itself: an object whose handlers update its vectors in place. Every handler is
    proved to leave exactly the state the model gives for it, and to keep the invariant. */
module Scheduling {
  import opened Counting
  import opened Sorting
  import opened SchedulerModel
  import opened SchedulerInvariant
  import opened SchedulerRuns
  import opened SchedulerEvents

  // ---------------------------------------------------------------- releasing requests one by one

  lemma ClearOneMore(row: seq<bool>, begins: set<nat>, b: nat)
    requires b % 16384 == 0 && SubOf(b) < |row|
    ensures ClearBits(row, begins + {b}) == ClearBits(row, begins)[SubOf(b) := false]
  {
    assert BeginOf(SubOf(b)) == b;
    forall i | 0 <= i < |row|
      ensures ClearBits(row, begins + {b})[i] == ClearBits(row, begins)[SubOf(b) := false][i]
    {
      assert BeginOf(i) == b <==> i == SubOf(b);
    }
  }

  lemma ClearOneMoreTime(row: seq<bool>, times: seq<nat>, begins: set<nat>, b: nat)
    requires b % 16384 == 0 && SubOf(b) < |row| == |times|
    ensures ClearTimes(row, times, begins + {b}) ==
            if ClearBits(row, begins)[SubOf(b)] then ClearTimes(row, times, begins)[SubOf(b) := 0]
            else ClearTimes(row, times, begins)
  {
    assert BeginOf(SubOf(b)) == b;
    forall i | 0 <= i < |row|
      ensures ClearTimes(row, times, begins + {b})[i] ==
              (if ClearBits(row, begins)[SubOf(b)] then ClearTimes(row, times, begins)[SubOf(b) := 0]
               else ClearTimes(row, times, begins))[i]
    {
      assert BeginOf(i) == b <==> i == SubOf(b);
    }
  }

  lemma ReleaseOneMore(row: seq<bool>, begins: set<nat>, b: nat, count: nat)
    requires b % 16384 == 0 && SubOf(b) < |row|
    ensures ReleaseCount(row, begins + {b}, count) ==
            MinusFloor(ReleaseCount(row, begins, count), if ClearBits(row, begins)[SubOf(b)] then 1 else 0)
  {
    ClearOneMore(row, begins, b);
    CountTrueUpdate(ClearBits(row, begins), SubOf(b), false);
  }

  function Restrict(m: map<nat, set<nat>>, keys: set<nat>): map<nat, set<nat>> {
    map c | c in m && c in keys :: m[c]
  }

  lemma NothingReleased(s: State, m: map<nat, set<nat>>)
    requires Wf(s)
    ensures Release(s, Restrict(m, {})) == s
  {
    var none := Restrict(m, {});
    assert forall c :: 0 <= c < |s.chunks| ==> c !in none;
  }

  /** Releasing chunk c after the others gives back the same as releasing them together. */
  lemma ReleaseTogether(s: State, m: map<nat, set<nat>>, gone: set<nat>, c: nat)
    requires Wf(s) && c in m && c < |s.chunks| && c !in gone
    ensures Release(Release(s, Restrict(m, gone)), map[c := m[c]]) == Release(s, Restrict(m, gone + {c}))
  {
    var s1 := Release(s, Restrict(m, gone));
    var one := map[c := m[c]];
    forall k | 0 <= k < |s.chunks|
      ensures ReleasedRow(s1, one, k) == ReleasedRow(s, Restrict(m, gone + {c}), k)
      ensures ReleasedTimes(s1, one, k) == ReleasedTimes(s, Restrict(m, gone + {c}), k)
      ensures ReleasedCount(s1, one, k) == ReleasedCount(s, Restrict(m, gone + {c}), k)
      ensures ReleasedChunk(s1, one, k) == ReleasedChunk(s, Restrict(m, gone + {c}), k)
    {
      if k == c { assert ReleasedRow(s, Restrict(m, gone), c) == s.req[c]; }
    }
  }

  lemma ReleaseOne(s: State, c: nat, begins: set<nat>)
    requires Wf(s) && c < |s.chunks|
    ensures var count := ReleaseCount(s.req[c], begins, s.reqCount[c]);
            Release(s, map[c := begins]) ==
            s.(req := s.req[c := ClearBits(s.req[c], begins)],
               reqTime := s.reqTime[c := ClearTimes(s.req[c], s.reqTime[c], begins)],
               reqCount := s.reqCount[c := count],
               chunks := if s.chunks[c] != Complete && count == 0 then s.chunks[c := Missing] else s.chunks)
  {
  }

  // ---------------------------------------------------------------- erasing a peer

  /** The first k peers without those in the slot. */
  function Others(peers: seq<PeerSlot>, slot: nat, k: nat): seq<PeerSlot>
    requires k <= |peers|
  {
    if k == 0 then []
    else Others(peers, slot, k - 1) + (if peers[k - 1].slotId != slot then [peers[k - 1]] else [])
  }

  lemma {:induction false} OthersAreAll(peers: seq<PeerSlot>, slot: nat, k: nat)
    requires k <= |peers| && forall p :: 0 <= p < k ==> peers[p].slotId != slot
    ensures Others(peers, slot, k) == peers[..k]
  {
    if k > 0 {
      OthersAreAll(peers, slot, k - 1);
      assert peers[..k] == peers[..k - 1] + [peers[k - 1]];
    }
  }

  lemma {:induction false} OthersSkip(peers: seq<PeerSlot>, slot: nat, p: nat, k: nat)
    requires UniqueSlots(peers) && p < k <= |peers| && peers[p].slotId == slot
    ensures Others(peers, slot, k) == peers[..p] + peers[p + 1..k]
  {
    if k == p + 1 {
      OthersAreAll(peers, slot, p);
    } else {
      OthersSkip(peers, slot, p, k - 1);
      assert peers[p + 1..k] == peers[p + 1..k - 1] + [peers[k - 1]];
    }
  }

  lemma OthersAre(peers: seq<PeerSlot>, slot: nat, p: nat)
    requires UniqueSlots(peers) && p < |peers| && peers[p].slotId == slot
    ensures Others(peers, slot, |peers|) == peers[..p] + peers[p + 1..]
  {
    OthersSkip(peers, slot, p, |peers|);
  }

  // ---------------------------------------------------------------- finding the first

  lemma {:induction false} FoundFirst(xs: seq<nat>, c: nat, k: nat)
    requires k < |xs| && xs[k] == c && FirstIndex(xs[..k], c) == None
    ensures FirstIndex(xs, c) == Some(k)
  {
    var init := xs[..|xs| - 1];
    if k == |xs| - 1 {
      assert init == xs[..k];
    } else {
      assert init[..k] == xs[..k];
      FoundFirst(init, c, k);
    }
  }

  // ---------------------------------------------------------------- sizing chunks one by one

  lemma NoSizesYet(s: State)
    requires Wf(s) && s.subBlocks == []
    ensures SetChunkSizes(s, []) == s
  {
    var r := SetChunkSizes(s, []);
    assert forall c :: 0 <= c < |s.chunks| ==>
             r.done[c] == s.done[c] && r.req[c] == s.req[c] && r.reqTime[c] == s.reqTime[c];
  }

  lemma OneMoreSize(s: State, sizes: seq<nat>, i: nat)
    requires Wf(s) && s.subBlocks == [] && i < |sizes|
    ensures var a, b, count := SetChunkSizes(s, sizes[..i]), SetChunkSizes(s, sizes[..i + 1]), SubBlockCount(sizes[i]);
            b == if i >= |s.chunks| then a.(subBlocks := a.subBlocks + [count])
                 else a.(subBlocks := a.subBlocks + [count],
                         done := a.done[i := seq(count, _ => false)],
                         req := a.req[i := seq(count, _ => false)],
                         reqTime := a.reqTime[i := seq(count, _ => 0)])
  {
    var a, b := SetChunkSizes(s, sizes[..i]), SetChunkSizes(s, sizes[..i + 1]);
    assert b.subBlocks == a.subBlocks + [SubBlockCount(sizes[i])];
    assert forall c :: 0 <= c < |s.chunks| && c != i ==> TotalIn(a.subBlocks, c) == TotalIn(b.subBlocks, c);
    assert forall c :: 0 <= c < |s.chunks| && c != i ==>
      b.done[c] == a.done[c] && b.req[c] == a.req[c] && b.reqTime[c] == a.reqTime[c];
  }

  class Scheduler {
    var chunkStates: seq<ChunkState>
    var subBlocks: seq<nat>
    var availability: seq<nat>
    var activeChunks: seq<nat>
    var subDone: seq<seq<bool>>
    var subReq: seq<seq<bool>>
    var subReqTime: seq<seq<nat>>
    var doneCount: seq<nat>
    var reqCount: seq<nat>
    var peerSlots: seq<PeerSlot>
    var phase: Phase
    var missingCount: nat
    var localSpeed: nat
    var cancelSet: bool
    var declineSet: bool
    var effects: seq<Effect>   // the calls made on the owner, in order

    ghost function View(): State
      reads this
    {
      State(chunkStates, subBlocks, availability, activeChunks, subDone, subReq, subReqTime,
            doneCount, reqCount, peerSlots, phase, missingCount, localSpeed, cancelSet, declineSet, effects)
    }

    constructor (totalChunks: nat, localSpeedMbps: nat)
      ensures View() == Init(totalChunks, localSpeedMbps)
      ensures Inv(View()) && MissingExact(View())
    {
      chunkStates := seq(totalChunks, _ => Missing);
      availability := seq(totalChunks, _ => 0);
      subBlocks := [];
      subDone := seq(totalChunks, _ => []);
      subReq := seq(totalChunks, _ => []);
      subReqTime := seq(totalChunks, _ => []);
      doneCount := seq(totalChunks, _ => 0);
      reqCount := seq(totalChunks, _ => 0);
      activeChunks := seq(totalChunks, i => i);
      peerSlots := [];
      missingCount := totalChunks;
      phase := Normal;
      localSpeed := localSpeedMbps;
      cancelSet := false;
      declineSet := false;
      effects := [];
      new;
      InitHolds(totalChunks, localSpeedMbps);
    }

    method SetCancelIssuer()
      requires Inv(View())
      modifies this
      ensures View() == old(View()).(canCancel := true) && Inv(View())
    {
      cancelSet := true;
    }

    method SetNotInterestedIssuer()
      requires Inv(View())
      modifies this
      ensures View() == old(View()).(canDecline := true) && Inv(View())
    {
      declineSet := true;
    }

    /** The shuffled order is whatever the random engine produced. */
    method RandomizePieceOrder(order: seq<nat>)
      requires Inv(View()) && multiset(order) == multiset(activeChunks)
      modifies this
      ensures View() == old(View()).(active := order) && Inv(View())
    {
      ShuffleKeeps(View(), order);
      activeChunks := order;
    }

    method SetSizes(sizes: seq<nat>)
      requires Inv(View()) && subBlocks == []
      modifies this
      ensures View() == SetChunkSizes(old(View()), sizes) && Inv(View())
    {
      ghost var s0 := View();
      NoSizesYet(s0);
      var i := 0;
      while i < |sizes|
        invariant 0 <= i <= |sizes| && View() == SetChunkSizes(s0, sizes[..i])
      {
        var count := SubBlockCount(sizes[i]);
        OneMoreSize(s0, sizes, i);
        subBlocks := subBlocks + [count];
        if i < |chunkStates| {
          var falses: seq<bool>, zeros: seq<nat> := seq(count, _ => false), seq(count, _ => 0);
          subDone := subDone[i := falses];
          subReq := subReq[i := falses];
          subReqTime := subReqTime[i := zeros];
        }
        i := i + 1;
      }
      assert sizes[..i] == sizes;
      ChunkSizesKeeps(s0, sizes);
    }

    // -------------------------------------------------------------- look-ups

    method PeerIndex(slot: nat) returns (r: Option<nat>)
      ensures r == FindSlot(peerSlots, slot)
    {
      for p := 0 to |peerSlots|
        invariant FindSlot(peerSlots, slot) == FindFrom(peerSlots, slot, p)
      {
        if peerSlots[p].slotId == slot {
          return Some(p);
        }
      }
      return None;
    }

    method WantsPeerNow(slot: nat) returns (wanted: bool)
      ensures wanted == WantsPeer(View(), slot)
    {
      var found := PeerIndex(slot);
      if found.None? {
        return false;
      }
      var peer := peerSlots[found.value];
      var i := 0;
      while i < |peer.bitfield| && i < |chunkStates|
        invariant 0 <= i <= |peer.bitfield| && i <= |chunkStates|
        invariant forall c :: 0 <= c < i ==> !(Advertises(peer, c) && chunkStates[c] != Complete)
      {
        if peer.bitfield[i] && chunkStates[i] != Complete {
          assert Advertises(View().peers[found.value], i);
          return true;
        }
        i := i + 1;
      }
      return false;
    }

    method SelectBestPeer(c: nat) returns (best: Option<nat>)
      ensures best == SelectBest(peerSlots, localSpeed, c)
    {
      var bestSlot, bestScore, bestHave := 0, INT_MIN, SIZE_MAX;
      for p := 0 to |peerSlots|
        invariant Winner(bestScore, bestHave, bestSlot) == BestOf(peerSlots, localSpeed, c, p)
      {
        var peer := peerSlots[p];
        if Advertises(peer, c) && !peer.choking && peer.timeouts < MAX_TIMEOUTS {
          var haveCount := HaveCount(peer);
          var score := Score(peer, localSpeed);
          if score > bestScore || (score == bestScore && haveCount < bestHave) {
            bestScore, bestSlot, bestHave := score, peer.slotId, haveCount;
          }
        }
      }
      if bestScore == INT_MIN {
        return None;
      }
      return Some(bestSlot);
    }

    // -------------------------------------------------------------- issuing requests

    method MarkRequested(c: nat, sub: nat, now: nat)
      requires c < |subReq| == |subReqTime| && sub < |subReq[c]| == |subReqTime[c]|
      modifies `subReq, `subReqTime
      ensures subReq == Put(old(subReq), c, sub, true) && subReqTime == Put(old(subReqTime), c, sub, now)
    {
      subReq := Put(subReq, c, sub, true);
      subReqTime := Put(subReqTime, c, sub, now);
    }

    method IssueRequest(p: nat, c: nat, sub: nat, now: nat)
      requires Wf(View()) && p < |peerSlots| && c < |chunkStates| && sub < Total(View(), c)
      modifies this
      ensures View() == IssueOne(old(View()), p, c, sub, now)
    {
      MarkRequested(c, sub, now);
      reqCount := reqCount[c := reqCount[c] + 1];
      var begin := BeginOf(sub);
      effects := effects + [Request(peerSlots[p].slotId, c, begin)];
      peerSlots := peerSlots[p := Launch(peerSlots[p], c, begin)];
    }

    method IssueRequests(p: nat, c: nat, now: nat, cap: nat)
      requires Wf(View()) && p < |peerSlots| && c < |chunkStates|
      modifies this
      ensures View() == IssueFrom(old(View()), p, c, 0, now, cap)
    {
      ghost var cur := View();
      ghost var goal := IssueFrom(cur, p, c, 0, now, cap);
      var total := if c < |subBlocks| then subBlocks[c] else 0;
      var sub := 0;
      while sub < total
        invariant View() == cur && Wf(cur) && p < |peerSlots| && c < |chunkStates| && 0 <= sub <= total == Total(cur, c)
        invariant IssueFrom(cur, p, c, sub, now, cap) == goal
      {
        if peerSlots[p].pending >= cap {
          break;
        }
        if !subReq[c][sub] {
          IssueRequest(p, c, sub, now);
          cur := View();
        }
        sub := sub + 1;
      }
    }

    method TryScheduleChunkOnPeer(p: nat, c: nat, now: nat, cap: nat)
      requires Wf(View()) && p < |peerSlots|
      modifies this
      ensures View() == TryChunk(old(View()), p, c, now, cap)
    {
      if c >= |chunkStates| || chunkStates[c] == Complete {
        return;
      }
      if !Advertises(peerSlots[p], c) || peerSlots[p].choking || peerSlots[p].timeouts >= MAX_TIMEOUTS {
        return;
      }
      var best := SelectBestPeer(c);
      if best != Some(peerSlots[p].slotId) {
        return;
      }
      var total := if c < |subBlocks| then subBlocks[c] else 0;
      if total == 0 {
        return;
      }

      chunkStates := chunkStates[c := Downloading];
      IssueRequests(p, c, now, cap);
    }

    method CollectCandidates(p: nat) returns (pending: seq<(nat, nat)>)
      requires Wf(View()) && p < |peerSlots|
      ensures pending == Candidates(View(), p, |activeChunks|)
    {
      pending := [];
      for k := 0 to |activeChunks|
        invariant pending == Candidates(View(), p, k)
      {
        var c := activeChunks[k];
        if chunkStates[c] != Complete && Advertises(peerSlots[p], c) {
          var total := if c < |subBlocks| then subBlocks[c] else 0;
          if reqCount[c] < total {
            pending := pending + [(availability[c], c)];
          }
        }
      }
    }

    method TryScheduleForPeer(p: nat, now: nat)
      requires Wf(View()) && p < |peerSlots|
      modifies this
      ensures View() == ScheduleForPeer(old(View()), p, now)
    {
      var n := |chunkStates|;
      var cap := peerSlots[p].cap;
      if IsFullSource(peerSlots[p], n) && HasPartialSources(peerSlots, n) && cap > 32 {
        cap := 32;
      }
      if peerSlots[p].pending >= cap {
        return;
      }
      var pending := CollectCandidates(p);
      pending := StableSort(pending, ByFirst);
      ScheduleEach(p, pending, now, cap);
    }

    method ScheduleEach(p: nat, pending: seq<(nat, nat)>, now: nat, cap: nat)
      requires Wf(View()) && p < |peerSlots|
      modifies this
      ensures View() == ScheduleList(old(View()), p, pending, 0, now, cap)
    {
      ghost var cur := View();
      ghost var goal := ScheduleList(cur, p, pending, 0, now, cap);
      var k := 0;
      while k < |pending|
        invariant View() == cur && Wf(cur) && p < |peerSlots| && 0 <= k <= |pending|
        invariant ScheduleList(cur, p, pending, k, now, cap) == goal
      {
        if peerSlots[p].pending >= cap {
          break;
        }
        TryScheduleChunkOnPeer(p, pending[k].1, now, cap);
        cur := View();
        k := k + 1;
      }
    }

    // -------------------------------------------------------------- rebalancing

    method ForgetDone(q: nat, c: nat, begin: nat)
      requires Wf(View()) && q < |peerSlots| && c in peerSlots[q].inFlight && begin in peerSlots[q].inFlight[c]
      modifies this
      ensures View() == DropDone(old(View()), q, c, begin)
    {
      var source := peerSlots[q];
      peerSlots := peerSlots[q := source.(inFlight := source.inFlight[c := source.inFlight[c] - {begin}])];
    }

    method HandOver(q: nat, p: nat, c: nat, begin: nat)
      requires p < |peerSlots| && q < |peerSlots| && p != q && c in peerSlots[q].inFlight
      modifies `effects, `peerSlots
      ensures effects == old(effects) + (if cancelSet then [Cancel(old(peerSlots)[q].slotId, c, begin)] else [])
                         + [Request(old(peerSlots)[p].slotId, c, begin)]
      ensures peerSlots ==
              old(peerSlots)[q := Yield(old(peerSlots)[q], c, begin)][p := Launch(old(peerSlots)[p], c, begin)]
    {
      if cancelSet {
        effects := effects + [Cancel(peerSlots[q].slotId, c, begin)];
      }
      peerSlots := peerSlots[q := Yield(peerSlots[q], c, begin)];
      effects := effects + [Request(peerSlots[p].slotId, c, begin)];
      peerSlots := peerSlots[p := Launch(peerSlots[p], c, begin)];
    }

    method MoveRequest(q: nat, p: nat, c: nat, begin: nat, now: nat)
      requires Wf(View()) && p < |peerSlots| && q < |peerSlots| && p != q
      requires c in peerSlots[q].inFlight && begin in peerSlots[q].inFlight[c]
      requires c < |chunkStates| && SubOf(begin) < Total(View(), c)
      modifies this
      ensures View() == MoveOne(old(View()), q, p, c, begin, now)
    {
      var sub := SubOf(begin);
      MarkRequested(c, sub, now);
      HandOver(q, p, c, begin);
    }

    method CanTakeFrom(p: nat, q: nat, c: nat) returns (willing: bool)
      requires p < |peerSlots| && q < |peerSlots|
      ensures willing == CanYield(View(), p, q, c)
    {
      if peerSlots[q].slotId == peerSlots[p].slotId || !IsFullSource(peerSlots[q], |chunkStates|) {
        return false;
      }
      return c in peerSlots[q].inFlight && peerSlots[q].inFlight[c] != {};
    }

    /** Source q: nothing to take, a finished sub-block to forget, or the one to move. */
    method TryTake(p: nat, q: nat, c: nat, now: nat) returns (moved: bool)
      requires Wf(View()) && p < |peerSlots| && q < |peerSlots| && c < |chunkStates|
      modifies this
      ensures Wf(View()) && |peerSlots| == |old(peerSlots)| && |chunkStates| == |old(chunkStates)|
      ensures ScanSources(old(View()), p, c, q, now) ==
              if moved then Scan(View(), true) else ScanSources(View(), p, c, q + 1, now)
    {
      var willing := CanTakeFrom(p, q, c);
      if !willing {
        return false;
      }
      var begin := MinOf(peerSlots[q].inFlight[c]);
      assert FlightsInRange(View().subBlocks, |View().chunks|, View().peers[q].inFlight);
      if subDone[c][SubOf(begin)] {
        ForgetDone(q, c, begin);
        return false;
      }
      MoveRequest(q, p, c, begin, now);
      return true;
    }

    method MoveFromSources(p: nat, c: nat, now: nat) returns (moved: bool)
      requires Wf(View()) && p < |peerSlots| && c < |chunkStates|
      modifies this
      ensures Scan(View(), moved) == ScanSources(old(View()), p, c, 0, now)
    {
      ghost var cur := View();
      ghost var goal := ScanSources(cur, p, c, 0, now);
      var q := 0;
      while q < |peerSlots|
        invariant View() == cur && Wf(cur) && p < |peerSlots| && c < |chunkStates| && 0 <= q <= |peerSlots|
        invariant ScanSources(cur, p, c, q, now) == goal
        decreases |peerSlots| - q
      {
        moved := TryTake(p, q, c, now);
        if moved {
          return true;
        }
        cur := View();
        q := q + 1;
      }
      return false;
    }

    method MoveOneRequest(p: nat, now: nat) returns (moved: bool)
      requires Wf(View()) && p < |peerSlots|
      modifies this
      ensures Scan(View(), moved) == ScanChunks(old(View()), p, 0, now)
    {
      ghost var cur := View();
      ghost var goal := ScanChunks(cur, p, 0, now);
      var k := 0;
      while k < |activeChunks|
        invariant View() == cur && Wf(cur) && p < |peerSlots| && 0 <= k <= |activeChunks|
        invariant ScanChunks(cur, p, k, now) == goal
        decreases |activeChunks| - k
      {
        if peerSlots[p].pending >= peerSlots[p].cap {
          return false;
        }
        var c := activeChunks[k];
        if Advertises(peerSlots[p], c) && chunkStates[c] != Complete {
          moved := MoveFromSources(p, c, now);
          if moved {
            return true;
          }
          cur := View();
        }
        k := k + 1;
      }
      return false;
    }

    method RebalanceSeedRequestsForPeer(p: nat, now: nat, maxMoves: nat)
      requires Wf(View()) && p < |peerSlots|
      modifies this
      ensures View() == Rebalance(old(View()), p, now, maxMoves)
    {
      if IsFullSource(peerSlots[p], |chunkStates|) {
        return;
      }
      ghost var cur := View();
      ghost var goal := MoveLoop(cur, p, now, maxMoves);
      var moves := 0;
      while peerSlots[p].pending < peerSlots[p].cap && moves < maxMoves
        invariant View() == cur && Wf(cur) && p < |peerSlots| && 0 <= moves <= maxMoves
        invariant MoveLoop(cur, p, now, maxMoves - moves) == goal
        decreases maxMoves - moves
      {
        var moved := MoveOneRequest(p, now);
        if !moved {
          break;
        }
        cur := View();
        moves := moves + 1;
      }
    }

    // -------------------------------------------------------------- endgame

    method FindPrimary(c: nat) returns (primary: nat)
      ensures primary == Primary(peerSlots, c)
    {
      primary := UINT32_MAX;
      var maxActive := 0;
      for p := 0 to |peerSlots|
        invariant (primary, maxActive) == PrimaryOf(peerSlots, c, p)
      {
        if c in peerSlots[p].inFlight && |peerSlots[p].inFlight[c]| > maxActive {
          maxActive := |peerSlots[p].inFlight[c]|;
          primary := peerSlots[p].slotId;
        }
      }
    }

    method HungerThreshold(primary: nat) returns (ms: nat)
      ensures ms == HungerMs(peerSlots, primary)
    {
      ms := 50;
      if primary != UINT32_MAX {
        var found := PeerIndex(primary);
        if found.Some? && peerSlots[found.value].rttUs > 0 {
          var twice := (peerSlots[found.value].rttUs * 2) % 0x1_0000_0000 / 1000;
          if twice > 50 {
            ms := twice;
          }
        }
      }
    }

    method FindRedundantPeers(c: nat, exclude: nat) returns (result: seq<(nat, nat)>)
      ensures result == RedundantPeers(peerSlots, c, exclude)
    {
      var candidates: seq<(nat, nat)> := [];
      for p := 0 to |peerSlots|
        invariant candidates == RedundantPairs(peerSlots, c, exclude, p)
      {
        var peer := peerSlots[p];
        if peer.slotId != exclude && Advertises(peer, c) && !peer.choking && peer.timeouts < MAX_TIMEOUTS
           && (c !in peer.inFlight || peer.inFlight[c] == {}) {
          candidates := candidates + [(peer.pending, peer.slotId)];
        }
      }
      candidates := StableSort(candidates, ByBoth);
      result := if |candidates| <= MAX_REDUNDANT_PEERS then candidates else candidates[..MAX_REDUNDANT_PEERS];
    }

    method SendToHelper(slot: nat, c: nat, sub: nat)
      requires Wf(View()) && c < |chunkStates| && sub < Total(View(), c)
      modifies this
      ensures View() == SendTo(old(View()), slot, c, sub)
    {
      var found := PeerIndex(slot);
      if found.Some? {
        var begin := BeginOf(sub);
        effects := effects + [Request(slot, c, begin)];
        peerSlots := peerSlots[found.value := Launch(peerSlots[found.value], c, begin)];
      }
    }

    method SendToHelpers(c: nat, sub: nat, helpers: seq<(nat, nat)>)
      requires Wf(View()) && c < |chunkStates| && sub < Total(View(), c)
      modifies this
      ensures View() == SendRedundant(old(View()), c, sub, helpers, 0)
    {
      ghost var cur := View();
      ghost var goal := SendRedundant(cur, c, sub, helpers, 0);
      for k := 0 to |helpers|
        invariant View() == cur && Wf(cur) && c < |chunkStates| && sub < Total(cur, c)
        invariant SendRedundant(cur, c, sub, helpers, k) == goal
      {
        SendToHelper(helpers[k].1, c, sub);
        cur := View();
      }
    }

    method IsOverdue(c: nat, sub: nat, now: nat, hunger: nat) returns (overdue: bool)
      requires Wf(View()) && c < |chunkStates| && sub < Total(View(), c)
      ensures overdue == Overdue(View(), c, sub, now, hunger)
    {
      if subDone[c][sub] || !subReq[c][sub] {
        return false;
      }
      var reqTime := subReqTime[c][sub];
      return reqTime != 0 && Elapsed(now, reqTime) > hunger;
    }

    method RescueSubBlock(c: nat, primary: nat, sub: nat)
      requires Wf(View()) && c < |chunkStates| && sub < Total(View(), c)
      modifies this
      ensures View() == SendRedundant(old(View()), c, sub, RedundantPeers(old(peerSlots), c, primary), 0)
      ensures View().(peers := old(peerSlots), effects := old(effects)) == old(View())
    {
      var helpers := FindRedundantPeers(c, primary);
      SendRedundantFrame(View(), c, sub, helpers, 0);
      SendToHelpers(c, sub, helpers);
    }

    method RescueChunk(c: nat, primary: nat, hunger: nat, now: nat) returns (anyHungry: bool)
      requires Wf(View()) && c < |chunkStates|
      modifies this
      ensures Rescued(View(), anyHungry) == RescueFrom(old(View()), c, primary, hunger, 0, now, false)
    {
      ghost var cur := View();
      ghost var goal := RescueFrom(cur, c, primary, hunger, 0, now, false);
      anyHungry := false;
      var total := if c < |subBlocks| then subBlocks[c] else 0;
      var sub := 0;
      while sub < total
        invariant View() == cur && Wf(cur) && c < |chunkStates| && 0 <= sub <= total == Total(cur, c)
        invariant RescueFrom(cur, c, primary, hunger, sub, now, anyHungry) == goal
      {
        var overdue := IsOverdue(c, sub, now, hunger);
        if overdue {
          anyHungry := true;
          RescueSubBlock(c, primary, sub);
          cur := View();
        }
        sub := sub + 1;
      }
    }

    method CollectDownloading() returns (downloading: seq<(nat, nat)>)
      requires Wf(View())
      ensures downloading == DownloadingOf(View(), |activeChunks|)
    {
      downloading := [];
      for k := 0 to |activeChunks|
        invariant downloading == DownloadingOf(View(), k)
      {
        var c := activeChunks[k];
        if chunkStates[c] == Downloading {
          var total := if c < |subBlocks| then subBlocks[c] else 0;
          downloading := downloading + [(MinusFloor(total, doneCount[c]), c)];
        }
      }
    }

    method RescueEach(downloading: seq<(nat, nat)>, now: nat)
      requires Wf(View()) && ChunksWithin(downloading, |chunkStates|)
      modifies this
      ensures View() == EndgameList(old(View()), downloading, 0, 0, now)
    {
      ghost var cur := View();
      ghost var goal := EndgameList(cur, downloading, 0, 0, now);
      var processed, k := 0, 0;
      while k < |downloading|
        invariant View() == cur && Wf(cur) && ChunksWithin(downloading, |chunkStates|) && 0 <= k <= |downloading|
        invariant EndgameList(cur, downloading, k, processed, now) == goal
      {
        if processed >= MAX_ENDGAME_CHUNKS {
          break;
        }
        var c := downloading[k].1;
        var total := if c < |subBlocks| then subBlocks[c] else 0;
        if total != 0 {
          var primary := FindPrimary(c);
          var hunger := HungerThreshold(primary);
          var anyHungry := RescueChunk(c, primary, hunger, now);
          cur := View();
          if anyHungry {
            processed := processed + 1;
          }
        }
        k := k + 1;
      }
    }

    method TickEndgamePass(now: nat)
      requires Wf(View())
      modifies this
      ensures View() == TickEndgame(old(View()), now)
    {
      var downloading := CollectDownloading();
      downloading := StableSort(downloading, ByFirst);
      assert downloading == EndgameOrder(View());
      RescueEach(downloading, now);
    }

    method RebalanceAll(now: nat)
      requires Wf(View())
      modifies this
      ensures View() == RebalanceFrom(old(View()), 0, now)
    {
      ghost var cur := View();
      ghost var goal := RebalanceFrom(cur, 0, now);
      var p := 0;
      while p < |peerSlots|
        invariant View() == cur && Wf(cur) && 0 <= p <= |peerSlots|
        invariant RebalanceFrom(cur, p, now) == goal
        decreases |peerSlots| - p
      {
        RebalanceSeedRequestsForPeer(p, now, 4);
        cur := View();
        p := p + 1;
      }
    }

    method ScheduleAll(now: nat)
      requires Wf(View())
      modifies this
      ensures View() == ScheduleAllFrom(old(View()), 0, now)
    {
      ghost var cur := View();
      ghost var goal := ScheduleAllFrom(cur, 0, now);
      var p := 0;
      while p < |peerSlots|
        invariant View() == cur && 0 <= p <= |peerSlots| && Wf(cur)
        invariant ScheduleAllFrom(cur, p, now) == goal
        decreases |peerSlots| - p
      {
        TryScheduleForPeer(p, now);
        cur := View();
        p := p + 1;
      }
    }

    method OnTick(now: nat)
      requires Inv(View())
      modifies this
      ensures View() == Tick(old(View()), now) && Inv(View())
    {
      TickKeeps(View(), now);
      if phase == Done {
        return;
      }
      RebalanceAll(now);
      ScheduleAll(now);
      if phase == Endgame {
        TickEndgamePass(now);
      }
    }

    // -------------------------------------------------------------- peer events

    method CheckPeerInterest(slot: nat)
      requires Wf(View())
      modifies this
      ensures View() == CheckInterest(old(View()), slot)
    {
      if declineSet {
        var wanted := WantsPeerNow(slot);
        if !wanted {
          effects := effects + [NotInterested(slot)];
        }
      }
    }

    method CountAvailable(bits: seq<bool>)
      modifies `availability
      ensures availability == AddBits(old(availability), bits)
    {
      ghost var a := availability;
      var i := 0;
      while i < |bits| && i < |availability|
        invariant 0 <= i <= |bits| && |availability| == |a|
        invariant forall c :: 0 <= c < |a| ==> availability[c] == a[c] + (if c < i && bits[c] then 1 else 0)
      {
        if bits[i] {
          availability := availability[i := availability[i] + 1];
        }
        i := i + 1;
      }
    }

    method RecordBitfield(p: nat, bits: seq<bool>)
      requires Wf(View()) && p < |peerSlots|
      modifies this
      ensures View() == NoteBitfield(old(View()), p, bits)
    {
      peerSlots := peerSlots[p := peerSlots[p].(bitfield := bits)];
      CountAvailable(bits);
    }

    method OnBitfieldMessage(slot: nat, bits: seq<bool>, now: nat)
      requires Inv(View())
      modifies this
      ensures View() == OnBitfield(old(View()), slot, bits, now) && Inv(View())
    {
      OnBitfieldKeeps(View(), slot, bits, now);
      var found := PeerIndex(slot);
      if found.None? {
        return;
      }
      var p := found.value;
      RecordBitfield(p, bits);
      CheckPeerInterest(slot);
      RebalanceSeedRequestsForPeer(p, now, 16);
    }

    method RecordHave(p: nat, c: nat)
      requires Wf(View()) && p < |peerSlots| && c < |peerSlots[p].bitfield|
      modifies this
      ensures View() == NoteHave(old(View()), p, c)
    {
      if !peerSlots[p].bitfield[c] {
        peerSlots := peerSlots[p := peerSlots[p].(bitfield := peerSlots[p].bitfield[c := true])];
        if c < |availability| {
          availability := availability[c := availability[c] + 1];
        }
      }
    }

    method OnHaveMessage(slot: nat, c: nat, now: nat)
      requires Inv(View())
      modifies this
      ensures View() == OnHave(old(View()), slot, c, now) && Inv(View())
    {
      OnHaveKeeps(View(), slot, c, now);
      var found := PeerIndex(slot);
      if found.None? || c >= |peerSlots[found.value].bitfield| {
        return;
      }
      var p := found.value;
      RecordHave(p, c);
      CheckPeerInterest(slot);
      RebalanceSeedRequestsForPeer(p, now, 8);
    }

    /** Slot ids come from a counter that only goes up, so a new one is unused. */
    method AddPeer(slot: nat, reportedSpeed: nat)
      requires Inv(View()) && FindSlot(peerSlots, slot).None?
      modifies this
      ensures View() == OnPeerAdded(old(View()), slot, reportedSpeed) && Inv(View())
    {
      OnPeerAddedKeeps(View(), slot, reportedSpeed);
      peerSlots := peerSlots + [NewPeer(slot, reportedSpeed, |availability|)];
    }

    method SetPeerSpeed(slot: nat, reportedSpeed: nat)
      requires Inv(View())
      modifies this
      ensures View() == OnPeerSpeed(old(View()), slot, reportedSpeed) && Inv(View())
    {
      PeerFieldsKeep(View(), PeerSpeed(slot, reportedSpeed));
      var found := PeerIndex(slot);
      if found.Some? {
        peerSlots := peerSlots[found.value :=
          peerSlots[found.value].(speed := reportedSpeed, speedReported := reportedSpeed)];
      }
    }

    method SetChoking(slot: nat, choking: bool)
      requires Inv(View())
      modifies this
      ensures View() == OnChokeChange(old(View()), slot, choking) && Inv(View())
    {
      PeerFieldsKeep(View(), ChokeChange(slot, choking));
      var found := PeerIndex(slot);
      if found.Some? {
        peerSlots := peerSlots[found.value := peerSlots[found.value].(choking := choking)];
      }
    }

    /** What the session's evaluation timer writes through `peer_slot`. */
    method TunePeer(slot: nat, cap: nat, timeouts: nat, rttUs: nat)
      requires Inv(View()) && cap <= 128
      modifies this
      ensures View() == OnTune(old(View()), slot, cap, timeouts, rttUs) && Inv(View())
    {
      PeerFieldsKeep(View(), Tuned(slot, cap, timeouts, rttUs));
      var found := PeerIndex(slot);
      if found.Some? {
        peerSlots := peerSlots[found.value :=
          peerSlots[found.value].(cap := cap, timeouts := timeouts, rttUs := rttUs)];
      }
    }

    // -------------------------------------------------------------- peer removal

    method SubtractAvailable(peer: PeerSlot)
      modifies `availability
      ensures availability == SubBits(old(availability), peer)
    {
      ghost var a := availability;
      for i := 0 to |peer.bitfield|
        invariant |availability| == |a|
        invariant forall c :: 0 <= c < |a| ==>
                    availability[c] == if c < i && peer.bitfield[c] then Dec32(a[c]) else a[c]
      {
        if peer.bitfield[i] && i < |availability| {
          availability := availability[i := Dec32(availability[i])];
        }
      }
    }

    method ReleaseRow(row0: seq<bool>, times0: seq<nat>, count0: nat, begins: set<nat>)
      returns (row: seq<bool>, times: seq<nat>, count: nat)
      requires |row0| == |times0| && forall b | b in begins :: b % 16384 == 0 && SubOf(b) < |row0|
      ensures row == ClearBits(row0, begins) && times == ClearTimes(row0, times0, begins)
      ensures count == ReleaseCount(row0, begins, count0)
    {
      row, times, count := row0, times0, count0;
      var left := begins;
      ghost var gone: set<nat> := {};
      while left != {}
        invariant gone + left == begins && gone !! left
        invariant row == ClearBits(row0, gone) && times == ClearTimes(row0, times0, gone)
        invariant count == ReleaseCount(row0, gone, count0)
        decreases |left|
      {
        var b := MinOf(left);
        var sub := SubOf(b);
        ClearOneMore(row0, gone, b);
        ClearOneMoreTime(row0, times0, gone, b);
        ReleaseOneMore(row0, gone, b, count0);
        if row[sub] {
          row := row[sub := false];
          times := times[sub := 0];
          count := MinusFloor(count, 1);
        }
        gone := gone + {b};
        left := left - {b};
      }
      assert gone == begins;
    }

    method ReleaseChunk(c: nat, begins: set<nat>)
      requires Wf(View()) && c < |chunkStates|
      requires forall b | b in begins :: b % 16384 == 0 && SubOf(b) < Total(View(), c)
      modifies this
      ensures View() == Release(old(View()), map[c := begins])
    {
      ReleaseOne(View(), c, begins);
      var row, times, count := ReleaseRow(subReq[c], subReqTime[c], reqCount[c], begins);
      subReq, subReqTime, reqCount := subReq[c := row], subReqTime[c := times], reqCount[c := count];
      if chunkStates[c] != Complete && reqCount[c] == 0 {
        chunkStates := chunkStates[c := Missing];
      }
    }

    method ReleaseAll(m: map<nat, set<nat>>)
      requires Wf(View()) && FlightsInRange(subBlocks, |chunkStates|, m)
      modifies this
      ensures View() == Release(old(View()), m)
    {
      ghost var s := View();
      NothingReleased(s, m);
      var left := m.Keys;
      ghost var gone: set<nat> := {};
      while left != {}
        invariant gone + left == m.Keys && gone !! left
        invariant View() == Release(s, Restrict(m, gone))
        decreases |left|
      {
        var c := MinOf(left);
        ReleaseTogether(s, m, gone, c);
        ReleaseChunk(c, m[c]);
        gone := gone + {c};
        left := left - {c};
      }
      assert Restrict(m, gone) == m;
    }

    method ErasePeer(slot: nat)
      modifies `peerSlots
      ensures peerSlots == Others(old(peerSlots), slot, |old(peerSlots)|)
    {
      var kept: seq<PeerSlot> := [];
      for p := 0 to |peerSlots|
        invariant kept == Others(peerSlots, slot, p)
      {
        if peerSlots[p].slotId != slot {
          kept := kept + [peerSlots[p]];
        }
      }
      peerSlots := kept;
    }

    method RemovePeer(slot: nat)
      requires Inv(View())
      modifies this
      ensures View() == OnPeerRemoved(old(View()), slot) && Inv(View())
    {
      ghost var s := View();
      var found := PeerIndex(slot);
      if found.Some? {
        WithoutPeerKeeps(s, found.value);
        var peer := peerSlots[found.value];
        SubtractAvailable(peer);
        ReleaseAll(peer.inFlight);
        OthersAre(s.peers, slot, found.value);
      } else {
        OthersAreAll(s.peers, slot, |s.peers|);
      }
      ErasePeer(slot);
    }

    // -------------------------------------------------------------- pieces, timeouts

    method LandPiece(p: nat, c: nat, begin: nat)
      requires Wf(View()) && p < |peerSlots| && peerSlots[p].pending > 0
      modifies this
      ensures View() == Landed(old(View()), p, c, begin)
    {
      var peer := peerSlots[p].(pending := peerSlots[p].pending - 1);
      var sub := SubOf(begin);
      if c < |subDone| && sub < |subDone[c]| && !subDone[c][sub] {
        subDone := Put(subDone, c, sub, true);
        doneCount := doneCount[c := doneCount[c] + 1];
      }
      if c in peer.inFlight {
        var left := peer.inFlight[c] - {begin};
        peer := peer.(inFlight := if left == {} then peer.inFlight - {c} else peer.inFlight[c := left]);
      }
      assert c !in peer.inFlight ==> peer.inFlight - {c} == peer.inFlight;
      peerSlots := peerSlots[p := peer];
    }

    method DecPeerPending(slot: nat, c: nat, begin: nat, now: nat)
      requires Inv(View())
      modifies this
      ensures View() == OnPiece(old(View()), slot, c, begin, now) && Inv(View())
    {
      OnPieceKeeps(View(), slot, c, begin, now);
      var found := PeerIndex(slot);
      if found.None? || peerSlots[found.value].pending == 0 {
        return;
      }
      LandPiece(found.value, c, begin);
      if phase != Done {
        TryScheduleForPeer(found.value, now);
      }
    }

    method OnSubblockTimeout(c: nat, begin: nat)
      requires Inv(View())
      modifies this
      ensures View() == OnTimeout(old(View()), c, begin) && Inv(View())
    {
      ghost var s := View();
      OnTimeoutKeeps(s, c, begin);
      if c >= |chunkStates| || chunkStates[c] == Complete {
        return;
      }
      var sub := SubOf(begin);
      if sub < |subReq[c]| {
        if subReq[c][sub] {
          subReq := Put(subReq, c, sub, false);
          reqCount := reqCount[c := MinusFloor(reqCount[c], 1)];
        } else {
          assert s.req[c][sub := false] == s.req[c];
        }
        subReqTime := Put(subReqTime, c, sub, 0);
      }
    }

    // -------------------------------------------------------------- completion

    method CancelEach(slot: nat, c: nat, begins: set<nat>, pending0: nat) returns (pending: nat)
      modifies `effects
      ensures effects == old(effects) + CancelEffects(slot, c, Ascending(begins))
      ensures pending == MinusFloor(pending0, |begins|)
    {
      pending := pending0;
      var order := Ascending(begins);
      for i := 0 to |order|
        invariant effects == old(effects) + CancelEffects(slot, c, order[..i]) && pending == MinusFloor(pending0, i)
      {
        effects := effects + [Cancel(slot, c, order[i])];
        if pending > 0 {
          pending := pending - 1;
        }
      }
      assert order[..|order|] == order;
    }

    method CancelPeerRequests(p: nat, c: nat)
      requires Wf(View()) && p < |peerSlots| && Flying(peerSlots[p], c) != {}
      modifies this
      ensures View() == CancelRequests(old(View()), c, p)
    {
      var peer := peerSlots[p];
      var pending := CancelEach(peer.slotId, c, peer.inFlight[c], peer.pending);
      peerSlots := peerSlots[p := peer.(pending := pending, inFlight := peer.inFlight - {c})];
    }

    method CancelLoser(p: nat, c: nat, winner: nat)
      requires Wf(View()) && p < |peerSlots|
      modifies this
      ensures View() == CancelAt(old(View()), c, winner, p)
    {
      if peerSlots[p].slotId != winner && c in peerSlots[p].inFlight && peerSlots[p].inFlight[c] != {} {
        CancelPeerRequests(p, c);
      }
    }

    method SendCancelForChunk(c: nat, winner: nat)
      requires Wf(View())
      modifies this
      ensures View() == SendCancel(old(View()), c, winner)
    {
      if !cancelSet {
        return;
      }
      ghost var cur := View();
      ghost var goal := CancelFrom(cur, c, winner, 0);
      var p := 0;
      while p < |peerSlots|
        invariant View() == cur && Wf(cur) && 0 <= p <= |peerSlots|
        invariant CancelFrom(cur, c, winner, p) == goal
        decreases |peerSlots| - p
      {
        CancelLoser(p, c, winner);
        cur := View();
        p := p + 1;
      }
    }

    method Find(c: nat) returns (r: Option<nat>)
      ensures r == FirstIndex(activeChunks, c)
    {
      for k := 0 to |activeChunks|
        invariant FirstIndex(activeChunks[..k], c) == None
      {
        assert activeChunks[..k + 1][..k] == activeChunks[..k];
        if activeChunks[k] == c {
          FoundFirst(activeChunks, c, k);
          return Some(k);
        }
      }
      assert activeChunks[..|activeChunks|] == activeChunks;
      return None;
    }

    method RemoveActive(c: nat)
      modifies `activeChunks
      ensures activeChunks == SwapRemove(old(activeChunks), c)
    {
      var found := Find(c);
      if found.Some? {
        var last := |activeChunks| - 1;
        activeChunks := activeChunks[found.value := activeChunks[last]];
        activeChunks := activeChunks[..last];
      }
    }

    method FinishChunk(c: nat)
      requires Wf(View()) && c < |chunkStates|
      modifies this
      ensures View() == Finished(old(View()), c)
    {
      chunkStates := chunkStates[c := Complete];
      missingCount := Dec32(missingCount);
      RemoveActive(c);
    }

    method CompleteChunk(msg: Completion)
      requires Wf(View()) && msg.chunk < |chunkStates|
      modifies this
      ensures View() == CompleteOne(old(View()), msg)
    {
      FinishChunk(msg.chunk);
      SendCancelForChunk(msg.chunk, msg.winner);
      reqCount := reqCount[msg.chunk := 0];
      effects := effects + [BroadcastHave(msg.chunk)];
    }

    method CompleteAll(completions: seq<Completion>)
      requires Wf(View()) && forall i :: 0 <= i < |completions| ==> completions[i].chunk < |chunkStates|
      modifies this
      ensures View() == CompleteFrom(old(View()), completions, 0)
    {
      ghost var cur := View();
      ghost var goal := CompleteFrom(cur, completions, 0);
      for k := 0 to |completions|
        invariant View() == cur && Wf(cur)
        invariant forall i :: 0 <= i < |completions| ==> completions[i].chunk < |chunkStates|
        invariant CompleteFrom(cur, completions, k) == goal
      {
        CompleteChunk(completions[k]);
        cur := View();
      }
    }

    method OnCompletions(completions: seq<Completion>)
      requires Inv(View()) && forall i :: 0 <= i < |completions| ==> completions[i].chunk < |chunkStates|
      modifies this
      ensures View() == ProcessCompletions(old(View()), completions) && Inv(View())
    {
      ProcessCompletionsKeeps(View(), completions);
      CompleteAll(completions);
      if missingCount == 0 {
        phase := Done;
        effects := effects + [BroadcastNotInterested];
      } else if missingCount < ENDGAME_THRESHOLD {
        phase := Endgame;
      }
    }

    method ClearTables(c: nat)
      requires c < |subReq| == |subReqTime| == |subDone|
      modifies `subReq, `subReqTime, `subDone
      ensures subReq == old(subReq[c := Falses(subReq[c])])
      ensures subReqTime == old(subReqTime[c := Zeros(subReqTime[c])])
      ensures subDone == old(subDone[c := Falses(subDone[c])])
    {
      subReq := subReq[c := Falses(subReq[c])];
      subReqTime := subReqTime[c := Zeros(subReqTime[c])];
      subDone := subDone[c := Falses(subDone[c])];
    }

    method ClearCounts(c: nat)
      requires c < |doneCount| == |reqCount|
      modifies `doneCount, `reqCount
      ensures doneCount == old(doneCount[c := 0]) && reqCount == old(reqCount[c := 0])
    {
      doneCount := doneCount[c := 0];
      reqCount := reqCount[c := 0];
    }

    method ClearChunk(c: nat)
      requires Wf(View()) && c < |chunkStates|
      modifies `subReq, `subReqTime, `subDone, `doneCount, `reqCount
      ensures View() == Cleared(old(View()), c)
    {
      ClearTables(c);
      ClearCounts(c);
    }

    method EnsureActive(c: nat)
      modifies `activeChunks
      ensures activeChunks == if c in old(activeChunks) then old(activeChunks) else old(activeChunks) + [c]
    {
      if c !in activeChunks {
        activeChunks := activeChunks + [c];
      }
    }

    method ResetChunk(c: nat)
      requires Wf(View()) && c < |chunkStates|
      modifies this
      ensures View() == VerifyFailed(old(View()), c)
    {
      chunkStates := chunkStates[c := Missing];
      ClearChunk(c);
      EnsureActive(c);
    }

    method OnVerifyFailed(c: nat)
      requires Inv(View()) && c < |chunkStates|
      modifies this
      ensures View() == VerifyFailed(old(View()), c) && Inv(View())
    {
      VerifyFailedKeeps(View(), c);
      ResetChunk(c);
    }

    method MarkChunk(c: nat)
      requires Wf(View()) && c < |chunkStates|
      modifies this
      ensures View() == MarkOne(old(View()), c)
    {
      if chunkStates[c] == Complete {
        return;
      }
      if chunkStates[c] == Missing {
        missingCount := Dec32(missingCount);
      }
      chunkStates := chunkStates[c := Complete];
      RemoveActive(c);
      reqCount := reqCount[c := 0];
    }

    method MarkAll(bits: seq<bool>)
      requires Wf(View())
      modifies this
      ensures View() == MarkFrom(old(View()), bits, 0)
    {
      ghost var cur := View();
      ghost var goal := MarkFrom(cur, bits, 0);
      var i := 0;
      while i < |bits| && i < |chunkStates|
        invariant View() == cur && Wf(cur) && 0 <= i <= |bits|
        invariant MarkFrom(cur, bits, i) == goal
        decreases |bits| - i
      {
        if bits[i] {
          MarkChunk(i);
          cur := View();
        }
        i := i + 1;
      }
    }

    method RestoreComplete(bits: seq<bool>)
      requires Inv(View())
      modifies this
      ensures View() == MarkAllComplete(old(View()), bits) && Inv(View())
    {
      ApplyKeeps(View(), Restored(bits));
      MarkAll(bits);
      if missingCount == 0 {
        phase := Done;
      } else if missingCount < ENDGAME_THRESHOLD {
        phase := Endgame;
      }
    }
  }
}
