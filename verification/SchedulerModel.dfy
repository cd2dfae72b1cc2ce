/** The scheduler's state and the state each of its handlers leaves behind.
    The handlers of class `Scheduler` are proved equal to these functions. */
module SchedulerModel {
  import opened Counting
  import opened Sorting

  const ENDGAME_THRESHOLD: nat := 128
  const MAX_ENDGAME_CHUNKS: nat := 32
  const MAX_REDUNDANT_PEERS: nat := 2
  const MAX_TIMEOUTS: nat := 3
  const UINT32_MAX: nat := 0xFFFF_FFFF
  const INT_MIN: int := -0x8000_0000
  const SIZE_MAX: nat := 0xFFFF_FFFF_FFFF_FFFF

  /** Byte offset of a 16 KiB sub-block inside its chunk, and back. */
  function BeginOf(sub: nat): nat { sub * 16384 }
  function SubOf(begin: nat): nat { begin / 16384 }

  /** `x--` on a 32-bit counter. */
  function Dec32(x: nat): nat { if x == 0 then UINT32_MAX else x - 1 }

  /** `if (x > 0) x -= k`, one at a time. */
  function MinusFloor(x: nat, k: nat): nat { if x >= k then x - k else 0 }

  /** `rows[c][i] = v`. */
  function Put<T>(rows: seq<seq<T>>, c: nat, i: nat, v: T): (r: seq<seq<T>>)
    requires c < |rows| && i < |rows[c]|
  {
    var row: seq<T> := rows[c][i := v];
    rows[c := row]
  }

  datatype ChunkState = Missing | Requested | Downloading | Complete

  datatype Phase = Normal | Endgame | Done

  datatype PeerSlot = PeerSlot(
    slotId: nat,
    pending: nat,
    timeouts: nat,
    rttUs: nat,
    speed: nat,
    speedReported: nat,
    cap: nat,
    choking: bool,
    bitfield: seq<bool>,
    inFlight: map<nat, set<nat>>)  // chunk -> begin offsets being downloaded

  /** The calls the scheduler makes on its owner. */
  datatype Effect =
    | Request(slot: nat, chunk: nat, begin: nat)
    | Cancel(slot: nat, chunk: nat, begin: nat)
    | BroadcastHave(chunk: nat)
    | BroadcastNotInterested
    | NotInterested(slot: nat)

  datatype Completion = Completion(chunk: nat, winner: nat)

  datatype State = State(
    chunks: seq<ChunkState>,
    subBlocks: seq<nat>,
    availability: seq<nat>,
    active: seq<nat>,
    done: seq<seq<bool>>,
    req: seq<seq<bool>>,
    reqTime: seq<seq<nat>>,
    doneCount: seq<nat>,
    reqCount: seq<nat>,
    peers: seq<PeerSlot>,
    phase: Phase,
    missing: nat,
    localSpeed: nat,
    canCancel: bool,
    canDecline: bool,
    effects: seq<Effect>)

  // ---------------------------------------------------------------- shape

  function TotalIn(subBlocks: seq<nat>, c: nat): nat {
    if c < |subBlocks| then subBlocks[c] else 0
  }

  function Total(s: State, c: nat): nat { TotalIn(s.subBlocks, c) }

  ghost predicate FlightsInRange(subBlocks: seq<nat>, n: nat, m: map<nat, set<nat>>) {
    forall c | c in m :: c < n && forall b | b in m[c] :: b % 16384 == 0 && SubOf(b) < TotalIn(subBlocks, c)
  }

  /** The parallel vectors have matching shapes and every index kept in the state is in range. */
  ghost predicate Wf(s: State) {
    && |s.availability| == |s.done| == |s.req| == |s.reqTime| == |s.chunks|
    && |s.doneCount| == |s.reqCount| == |s.chunks|
    && (forall c :: 0 <= c < |s.chunks| ==>
          |s.done[c]| == |s.req[c]| == |s.reqTime[c]| == TotalIn(s.subBlocks, c))
    && (forall k :: 0 <= k < |s.active| ==> s.active[k] < |s.chunks|)
    && (forall p :: 0 <= p < |s.peers| ==> FlightsInRange(s.subBlocks, |s.chunks|, s.peers[p].inFlight))
  }

  // ---------------------------------------------------------------- peers

  function HaveCount(peer: PeerSlot): nat { CountTrue(peer.bitfield) }

  predicate Advertises(peer: PeerSlot, c: nat) {
    c < |peer.bitfield| && peer.bitfield[c]
  }

  predicate IsFullSource(peer: PeerSlot, n: nat) {
    n > 0 && |peer.bitfield| >= n && HaveCount(peer) >= n
  }

  predicate IsPartialSource(peer: PeerSlot, n: nat) {
    0 < HaveCount(peer) < n
  }

  predicate HasPartialSources(peers: seq<PeerSlot>, n: nat) {
    exists p :: 0 <= p < |peers| && IsPartialSource(peers[p], n)
  }

  /** Begin offsets of chunk c this peer is downloading. */
  function Flying(peer: PeerSlot, c: nat): set<nat> {
    if c in peer.inFlight then peer.inFlight[c] else {}
  }

  function FindFrom(peers: seq<PeerSlot>, slot: nat, k: nat): (r: Option<nat>)
    requires k <= |peers|
    ensures r.Some? ==> k <= r.value < |peers| && peers[r.value].slotId == slot
    ensures r.None? ==> forall p :: k <= p < |peers| ==> peers[p].slotId != slot
    decreases |peers| - k
  {
    if k == |peers| then None
    else if peers[k].slotId == slot then Some(k) else FindFrom(peers, slot, k + 1)
  }

  function FindSlot(peers: seq<PeerSlot>, slot: nat): (r: Option<nat>)
    ensures r.Some? ==> r.value < |peers| && peers[r.value].slotId == slot
    ensures r.None? ==> forall p :: 0 <= p < |peers| ==> peers[p].slotId != slot
  {
    FindFrom(peers, slot, 0)
  }

  predicate Serviceable(peer: PeerSlot, c: nat) {
    Advertises(peer, c) && !peer.choking && peer.timeouts < MAX_TIMEOUTS
  }

  /** `static_cast<int>` of a 32-bit unsigned value. */
  function AsInt32(x: nat): int {
    var low := x % 0x1_0000_0000;
    if low < 0x8000_0000 then low else low - 0x1_0000_0000
  }

  /** Integer division rounding toward zero, by 2000. */
  function DivTrunc2000(x: int): int { if x >= 0 then x / 2000 else -((-x) / 2000) }

  function Score(peer: PeerSlot, localSpeed: nat): int {
    var fast := if localSpeed >= 1000 && peer.speed >= 1000 then 10 else 0;
    var lacks := if |peer.bitfield| > HaveCount(peer) then (|peer.bitfield| - HaveCount(peer)) / 64 else 0;
    fast + (if lacks < 50 then lacks else 50) - peer.pending * 6 - DivTrunc2000(AsInt32(peer.rttUs))
  }

  /** Running winner of the peer scan: its score, its have-count and its slot. */
  datatype Winner = Winner(score: int, have: nat, slot: nat)

  function BestOf(peers: seq<PeerSlot>, localSpeed: nat, c: nat, k: nat): Winner
    requires k <= |peers|
  {
    if k == 0 then Winner(INT_MIN, SIZE_MAX, 0)
    else
      var best := BestOf(peers, localSpeed, c, k - 1);
      Challenge(best, peers[k - 1], localSpeed, c)
  }

  function Challenge(best: Winner, peer: PeerSlot, localSpeed: nat, c: nat): Winner {
    if !Serviceable(peer, c) then best
    else
      var score, have := Score(peer, localSpeed), HaveCount(peer);
      if score > best.score || (score == best.score && have < best.have)
      then Winner(score, have, peer.slotId) else best
  }

  function SelectBest(peers: seq<PeerSlot>, localSpeed: nat, c: nat): Option<nat> {
    var best := BestOf(peers, localSpeed, c, |peers|);
    if best.score == INT_MIN then None else Some(best.slot)
  }

  // ---------------------------------------------------------------- issuing requests

  /** One more request for (c, begin) is outstanding at this peer. */
  function Launch(peer: PeerSlot, c: nat, begin: nat): PeerSlot {
    peer.(pending := peer.pending + 1, inFlight := peer.inFlight[c := Flying(peer, c) + {begin}])
  }

  lemma LaunchInRange(s: State, p: nat, c: nat, sub: nat)
    requires Wf(s) && p < |s.peers| && c < |s.chunks| && sub < Total(s, c)
    ensures FlightsInRange(s.subBlocks, |s.chunks|, Launch(s.peers[p], c, BeginOf(sub)).inFlight)
  {
    assert BeginOf(sub) % 16384 == 0 && SubOf(BeginOf(sub)) == sub;
    assert FlightsInRange(s.subBlocks, |s.chunks|, s.peers[p].inFlight);
  }

  function IssueOne(s: State, p: nat, c: nat, sub: nat, now: nat): (r: State)
    requires Wf(s) && p < |s.peers| && c < |s.chunks| && sub < Total(s, c)
    ensures Wf(r)
  {
    LaunchInRange(s, p, c, sub);
    s.(req := Put(s.req, c, sub, true),
       reqTime := Put(s.reqTime, c, sub, now),
       reqCount := s.reqCount[c := s.reqCount[c] + 1],
       effects := s.effects + [Request(s.peers[p].slotId, c, BeginOf(sub))],
       peers := s.peers[p := Launch(s.peers[p], c, BeginOf(sub))])
  }

  function IssueFrom(s: State, p: nat, c: nat, sub: nat, now: nat, cap: nat): (r: State)
    requires Wf(s) && p < |s.peers| && c < |s.chunks|
    ensures Wf(r) && |r.peers| == |s.peers|
    decreases Total(s, c) - sub
  {
    if sub >= Total(s, c) || s.peers[p].pending >= cap then s
    else if s.req[c][sub] then IssueFrom(s, p, c, sub + 1, now, cap)
    else IssueFrom(IssueOne(s, p, c, sub, now), p, c, sub + 1, now, cap)
  }

  predicate CanIssue(s: State, p: nat, c: nat)
    requires p < |s.peers|
  {
    && c < |s.chunks|
    && s.chunks[c] != Complete
    && Serviceable(s.peers[p], c)
    && SelectBest(s.peers, s.localSpeed, c) == Some(s.peers[p].slotId)
    && Total(s, c) != 0
  }

  function TryChunk(s: State, p: nat, c: nat, now: nat, cap: nat): (r: State)
    requires Wf(s) && p < |s.peers|
    ensures Wf(r) && |r.peers| == |s.peers|
  {
    if CanIssue(s, p, c)
    then IssueFrom(s.(chunks := s.chunks[c := Downloading]), p, c, 0, now, cap)
    else s
  }

  /** Pipeline limit of a peer: a full source yields to partial sources beyond 32. */
  function EffectiveCap(s: State, p: nat): nat
    requires p < |s.peers|
  {
    var n := |s.chunks|;
    if IsFullSource(s.peers[p], n) && HasPartialSources(s.peers, n) && s.peers[p].cap > 32
    then 32 else s.peers[p].cap
  }

  predicate Wanted(s: State, p: nat, c: nat)
    requires Wf(s) && p < |s.peers|
  {
    && c < |s.chunks|
    && s.chunks[c] != Complete
    && Advertises(s.peers[p], c)
    && s.reqCount[c] < Total(s, c)
  }

  /** The chunks worth asking p for, in active order, with their availability. */
  function Candidates(s: State, p: nat, k: nat): seq<(nat, nat)>
    requires Wf(s) && p < |s.peers| && k <= |s.active|
  {
    if k == 0 then []
    else
      var c := s.active[k - 1];
      Candidates(s, p, k - 1) + (if Wanted(s, p, c) then [(s.availability[c], c)] else [])
  }

  predicate ByFirst(a: (nat, nat), b: (nat, nat)) { a.0 <= b.0 }

  predicate ByBoth(a: (nat, nat), b: (nat, nat)) { a.0 < b.0 || (a.0 == b.0 && a.1 <= b.1) }

  function ScheduleList(s: State, p: nat, list: seq<(nat, nat)>, k: nat, now: nat, cap: nat): (r: State)
    requires Wf(s) && p < |s.peers| && k <= |list|
    ensures Wf(r) && |r.peers| == |s.peers|
    decreases |list| - k
  {
    if k == |list| || s.peers[p].pending >= cap then s
    else ScheduleList(TryChunk(s, p, list[k].1, now, cap), p, list, k + 1, now, cap)
  }

  function RarestFirst(s: State, p: nat): seq<(nat, nat)>
    requires Wf(s) && p < |s.peers|
  {
    StableSort(Candidates(s, p, |s.active|), ByFirst)
  }

  function ScheduleForPeer(s: State, p: nat, now: nat): (r: State)
    requires Wf(s) && p < |s.peers|
    ensures Wf(r) && |r.peers| == |s.peers|
  {
    var cap := EffectiveCap(s, p);
    if s.peers[p].pending >= cap then s
    else ScheduleList(s, p, RarestFirst(s, p), 0, now, cap)
  }

  // ---------------------------------------------------------------- rebalancing

  /** A finished sub-block leaves the source's set; the emptied set may stay behind. */
  function DropDone(s: State, q: nat, c: nat, begin: nat): (r: State)
    requires Wf(s) && q < |s.peers| && c in s.peers[q].inFlight
    ensures Wf(r)
  {
    var source := s.peers[q];
    s.(peers := s.peers[q := source.(inFlight := source.inFlight[c := source.inFlight[c] - {begin}])])
  }

  /** The source gives (c, begin) up. */
  function Yield(source: PeerSlot, c: nat, begin: nat): PeerSlot
    requires c in source.inFlight
  {
    var left := source.inFlight[c] - {begin};
    source.(pending := MinusFloor(source.pending, 1),
            inFlight := if left == {} then source.inFlight - {c} else source.inFlight[c := left])
  }

  function MoveOne(s: State, q: nat, p: nat, c: nat, begin: nat, now: nat): (r: State)
    requires Wf(s) && p < |s.peers| && q < |s.peers| && p != q
    requires c in s.peers[q].inFlight && begin in s.peers[q].inFlight[c]
    ensures Wf(r)
  {
    var sub := SubOf(begin);
    assert FlightsInRange(s.subBlocks, |s.chunks|, s.peers[q].inFlight);
    LaunchInRange(s, p, c, sub);
    assert BeginOf(sub) == begin;
    s.(req := Put(s.req, c, sub, true),
       reqTime := Put(s.reqTime, c, sub, now),
       effects := s.effects
                  + (if s.canCancel then [Cancel(s.peers[q].slotId, c, begin)] else [])
                  + [Request(s.peers[p].slotId, c, begin)],
       peers := s.peers[q := Yield(s.peers[q], c, begin)][p := Launch(s.peers[p], c, begin)])
  }

  /** Result of a scan: the state and whether a request was moved. */
  datatype Scan = Scan(s: State, moved: bool)

  predicate CanYield(s: State, p: nat, q: nat, c: nat)
    requires p < |s.peers| && q < |s.peers|
  {
    && s.peers[q].slotId != s.peers[p].slotId
    && IsFullSource(s.peers[q], |s.chunks|)
    && Flying(s.peers[q], c) != {}
  }

  function ScanSources(s: State, p: nat, c: nat, q: nat, now: nat): (r: Scan)
    requires Wf(s) && p < |s.peers| && c < |s.chunks| && q <= |s.peers|
    ensures Wf(r.s) && |r.s.peers| == |s.peers| && r.s.active == s.active
    decreases |s.peers| - q
  {
    if q == |s.peers| then Scan(s, false)
    else if !CanYield(s, p, q, c) then ScanSources(s, p, c, q + 1, now)
    else
      var begin := MinOf(Flying(s.peers[q], c));
      assert FlightsInRange(s.subBlocks, |s.chunks|, s.peers[q].inFlight);
      if s.done[c][SubOf(begin)] then ScanSources(DropDone(s, q, c, begin), p, c, q + 1, now)
      else Scan(MoveOne(s, q, p, c, begin, now), true)
  }

  function ScanChunks(s: State, p: nat, k: nat, now: nat): (r: Scan)
    requires Wf(s) && p < |s.peers| && k <= |s.active|
    ensures Wf(r.s) && |r.s.peers| == |s.peers|
    decreases |s.active| - k
  {
    if k == |s.active| || s.peers[p].pending >= s.peers[p].cap then Scan(s, false)
    else
      var c := s.active[k];
      if !Advertises(s.peers[p], c) || s.chunks[c] == Complete then ScanChunks(s, p, k + 1, now)
      else
        var r := ScanSources(s, p, c, 0, now);
        if r.moved then r else ScanChunks(r.s, p, k + 1, now)
  }

  function MoveLoop(s: State, p: nat, now: nat, left: nat): (r: State)
    requires Wf(s) && p < |s.peers|
    ensures Wf(r) && |r.peers| == |s.peers|
    decreases left
  {
    if s.peers[p].pending >= s.peers[p].cap || left == 0 then s
    else
      var r := ScanChunks(s, p, 0, now);
      if r.moved then MoveLoop(r.s, p, now, left - 1) else r.s
  }

  function Rebalance(s: State, p: nat, now: nat, maxMoves: nat): (r: State)
    requires Wf(s) && p < |s.peers|
    ensures Wf(r) && |r.peers| == |s.peers|
  {
    if IsFullSource(s.peers[p], |s.chunks|) then s else MoveLoop(s, p, now, maxMoves)
  }

  // ---------------------------------------------------------------- endgame

  function DownloadingOf(s: State, k: nat): seq<(nat, nat)>
    requires Wf(s) && k <= |s.active|
  {
    if k == 0 then []
    else
      var c := s.active[k - 1];
      DownloadingOf(s, k - 1)
      + (if s.chunks[c] == Downloading then [(MinusFloor(Total(s, c), s.doneCount[c]), c)] else [])
  }

  /** Peer with most of chunk c in flight, first one winning ties; UINT32_MAX when nobody has any. */
  function PrimaryOf(peers: seq<PeerSlot>, c: nat, k: nat): (nat, nat)
    requires k <= |peers|
  {
    if k == 0 then (UINT32_MAX, 0)
    else
      var best := PrimaryOf(peers, c, k - 1);
      if |Flying(peers[k - 1], c)| > best.1 then (peers[k - 1].slotId, |Flying(peers[k - 1], c)|) else best
  }

  function Primary(peers: seq<PeerSlot>, c: nat): nat { PrimaryOf(peers, c, |peers|).0 }

  function HungerMs(peers: seq<PeerSlot>, primary: nat): nat {
    if primary == UINT32_MAX then 50
    else match FindSlot(peers, primary)
      case None => 50
      case Some(p) =>
        var twice := (peers[p].rttUs * 2) % 0x1_0000_0000 / 1000;
        if peers[p].rttUs > 0 && twice > 50 then twice else 50
  }

  /** `now - then` on 64-bit unsigned milliseconds. */
  function Elapsed(now: nat, since: nat): nat {
    (now - since) % 0x1_0000_0000_0000_0000
  }

  predicate Overdue(s: State, c: nat, sub: nat, now: nat, hunger: nat)
    requires Wf(s) && c < |s.chunks| && sub < Total(s, c)
  {
    && !s.done[c][sub]
    && s.req[c][sub]
    && s.reqTime[c][sub] != 0
    && Elapsed(now, s.reqTime[c][sub]) > hunger
  }

  predicate Redundant(peer: PeerSlot, c: nat, exclude: nat) {
    peer.slotId != exclude && Serviceable(peer, c) && Flying(peer, c) == {}
  }

  function RedundantPairs(peers: seq<PeerSlot>, c: nat, exclude: nat, k: nat): seq<(nat, nat)>
    requires k <= |peers|
  {
    if k == 0 then []
    else
      RedundantPairs(peers, c, exclude, k - 1)
      + (if Redundant(peers[k - 1], c, exclude) then [(peers[k - 1].pending, peers[k - 1].slotId)] else [])
  }

  /** Up to two idle holders of chunk c, least loaded first. */
  function RedundantPeers(peers: seq<PeerSlot>, c: nat, exclude: nat): (r: seq<(nat, nat)>)
    ensures |r| <= MAX_REDUNDANT_PEERS
  {
    var sorted := StableSort(RedundantPairs(peers, c, exclude, |peers|), ByBoth);
    if |sorted| <= MAX_REDUNDANT_PEERS then sorted else sorted[..MAX_REDUNDANT_PEERS]
  }

  /** Sends one redundant request to the peer holding this slot, if it is still there. */
  function SendTo(s: State, slot: nat, c: nat, sub: nat): (r: State)
    requires Wf(s) && c < |s.chunks| && sub < Total(s, c)
    ensures Wf(r) && |r.peers| == |s.peers|
  {
    match FindSlot(s.peers, slot)
    case None => s
    case Some(p) =>
      LaunchInRange(s, p, c, sub);
      s.(effects := s.effects + [Request(slot, c, BeginOf(sub))],
         peers := s.peers[p := Launch(s.peers[p], c, BeginOf(sub))])
  }

  function SendRedundant(s: State, c: nat, sub: nat, slots: seq<(nat, nat)>, k: nat): (r: State)
    requires Wf(s) && c < |s.chunks| && sub < Total(s, c) && k <= |slots|
    ensures Wf(r) && |r.peers| == |s.peers|
    decreases |slots| - k
  {
    if k == |slots| then s else SendRedundant(SendTo(s, slots[k].1, c, sub), c, sub, slots, k + 1)
  }

  lemma {:induction false} SendRedundantFrame(s: State, c: nat, sub: nat, slots: seq<(nat, nat)>, k: nat)
    requires Wf(s) && c < |s.chunks| && sub < Total(s, c) && k <= |slots|
    ensures var r := SendRedundant(s, c, sub, slots, k);
            r.(peers := s.peers, effects := s.effects) == s
    decreases |slots| - k
  {
    if k < |slots| {
      SendRedundantFrame(SendTo(s, slots[k].1, c, sub), c, sub, slots, k + 1);
    }
  }

  datatype Rescued = Rescued(s: State, hungry: bool)

  function RescueFrom(s: State, c: nat, primary: nat, hunger: nat, sub: nat, now: nat, hungry: bool): (r: Rescued)
    requires Wf(s) && c < |s.chunks|
    ensures Wf(r.s) && |r.s.peers| == |s.peers| && |r.s.chunks| == |s.chunks|
    decreases Total(s, c) - sub
  {
    if sub >= Total(s, c) then Rescued(s, hungry)
    else if !Overdue(s, c, sub, now, hunger) then RescueFrom(s, c, primary, hunger, sub + 1, now, hungry)
    else
      var s1 := SendRedundant(s, c, sub, RedundantPeers(s.peers, c, primary), 0);
      SendRedundantFrame(s, c, sub, RedundantPeers(s.peers, c, primary), 0);
      RescueFrom(s1, c, primary, hunger, sub + 1, now, true)
  }

  ghost predicate ChunksWithin(list: seq<(nat, nat)>, n: nat) {
    forall i :: 0 <= i < |list| ==> list[i].1 < n
  }

  function EndgameList(s: State, list: seq<(nat, nat)>, k: nat, processed: nat, now: nat): (r: State)
    requires Wf(s) && k <= |list|
    requires ChunksWithin(list, |s.chunks|)
    ensures Wf(r) && |r.peers| == |s.peers|
    decreases |list| - k
  {
    if k == |list| || processed >= MAX_ENDGAME_CHUNKS then s
    else
      var c := list[k].1;
      if Total(s, c) == 0 then EndgameList(s, list, k + 1, processed, now)
      else
        var primary := Primary(s.peers, c);
        var hunger := HungerMs(s.peers, primary);
        var r := RescueFrom(s, c, primary, hunger, 0, now, false);
        EndgameList(r.s, list, k + 1, if r.hungry then processed + 1 else processed, now)
  }

  lemma {:induction false} DownloadingInRange(s: State, k: nat)
    requires Wf(s) && k <= |s.active|
    ensures forall x | x in DownloadingOf(s, k) :: x.1 < |s.chunks|
  {
    if k > 0 { DownloadingInRange(s, k - 1); }
  }

  /** Downloading chunks, fewest missing sub-blocks first. */
  function EndgameOrder(s: State): (r: seq<(nat, nat)>)
    requires Wf(s)
    ensures ChunksWithin(r, |s.chunks|)
  {
    var list := DownloadingOf(s, |s.active|);
    DownloadingInRange(s, |s.active|);
    StableSortPermutes(list, ByFirst);
    var r := StableSort(list, ByFirst);
    assert forall i :: 0 <= i < |r| ==> r[i] in r;
    r
  }

  function TickEndgame(s: State, now: nat): (r: State)
    requires Wf(s)
    ensures Wf(r)
  {
    EndgameList(s, EndgameOrder(s), 0, 0, now)
  }

  // ---------------------------------------------------------------- tick

  function RebalanceFrom(s: State, p: nat, now: nat): (r: State)
    requires Wf(s) && p <= |s.peers|
    ensures Wf(r) && |r.peers| == |s.peers|
    decreases |s.peers| - p
  {
    if p == |s.peers| then s else RebalanceFrom(Rebalance(s, p, now, 4), p + 1, now)
  }

  function ScheduleAllFrom(s: State, p: nat, now: nat): (r: State)
    requires Wf(s) && p <= |s.peers|
    ensures Wf(r) && |r.peers| == |s.peers|
    decreases |s.peers| - p
  {
    if p == |s.peers| then s else ScheduleAllFrom(ScheduleForPeer(s, p, now), p + 1, now)
  }

  function Tick(s: State, now: nat): (r: State)
    requires Wf(s)
    ensures Wf(r)
  {
    if s.phase == Done then s
    else
      var s1 := RebalanceFrom(s, 0, now);
      var s2 := ScheduleAllFrom(s1, 0, now);
      if s2.phase == Endgame then TickEndgame(s2, now) else s2
  }

  // ---------------------------------------------------------------- completion

  function FirstIndex(xs: seq<nat>, c: nat): (r: Option<nat>)
    ensures r.Some? ==> r.value < |xs| && xs[r.value] == c
    ensures r.None? ==> c !in xs
  {
    if |xs| == 0 then None
    else
      var r := FirstIndex(xs[..|xs| - 1], c);
      assert xs == xs[..|xs| - 1] + [xs[|xs| - 1]];
      if r.Some? then r else if xs[|xs| - 1] == c then Some(|xs| - 1) else None
  }

  /** Overwrites the first c with the back element and pops the back. */
  function SwapRemove(xs: seq<nat>, c: nat): (r: seq<nat>)
    ensures forall x | x in r :: x in xs
  {
    match FirstIndex(xs, c)
    case None => xs
    case Some(k) => xs[k := xs[|xs| - 1]][..|xs| - 1]
  }

  predicate Loses(peer: PeerSlot, c: nat, winner: nat) {
    peer.slotId != winner && Flying(peer, c) != {}
  }

  function CancelEffects(slot: nat, c: nat, begins: seq<nat>): seq<Effect> {
    seq(|begins|, i requires 0 <= i < |begins| => Cancel(slot, c, begins[i]))
  }

  /** Cancels what peer p still downloads of chunk c. */
  function CancelRequests(s: State, c: nat, p: nat): (r: State)
    requires Wf(s) && p < |s.peers| && Flying(s.peers[p], c) != {}
    ensures Wf(r) && |r.peers| == |s.peers|
  {
    var peer := s.peers[p];
    s.(peers := s.peers[p := peer.(pending := MinusFloor(peer.pending, |Flying(peer, c)|),
                                   inFlight := peer.inFlight - {c})],
       effects := s.effects + CancelEffects(peer.slotId, c, Ascending(Flying(peer, c))))
  }

  function CancelAt(s: State, c: nat, winner: nat, p: nat): (r: State)
    requires Wf(s) && p < |s.peers|
    ensures Wf(r) && |r.peers| == |s.peers|
  {
    if Loses(s.peers[p], c, winner) then CancelRequests(s, c, p) else s
  }

  function CancelFrom(s: State, c: nat, winner: nat, p: nat): (r: State)
    requires Wf(s) && p <= |s.peers|
    ensures Wf(r) && |r.peers| == |s.peers| && |r.chunks| == |s.chunks|
    decreases |s.peers| - p
  {
    if p == |s.peers| then s else CancelFrom(CancelAt(s, c, winner, p), c, winner, p + 1)
  }

  function SendCancel(s: State, c: nat, winner: nat): (r: State)
    requires Wf(s)
    ensures Wf(r) && |r.chunks| == |s.chunks|
  {
    if s.canCancel then CancelFrom(s, c, winner, 0) else s
  }

  function Finished(s: State, c: nat): (r: State)
    requires Wf(s) && c < |s.chunks|
    ensures Wf(r)
  {
    s.(chunks := s.chunks[c := Complete], missing := Dec32(s.missing), active := SwapRemove(s.active, c))
  }

  function CompleteOne(s: State, msg: Completion): (r: State)
    requires Wf(s) && msg.chunk < |s.chunks|
    ensures Wf(r) && |r.chunks| == |s.chunks|
  {
    var s1 := Finished(s, msg.chunk);
    var s2 := SendCancel(s1, msg.chunk, msg.winner);
    s2.(reqCount := s2.reqCount[msg.chunk := 0], effects := s2.effects + [BroadcastHave(msg.chunk)])
  }

  function CompleteFrom(s: State, msgs: seq<Completion>, k: nat): (r: State)
    requires Wf(s) && k <= |msgs|
    requires forall i :: 0 <= i < |msgs| ==> msgs[i].chunk < |s.chunks|
    ensures Wf(r) && |r.chunks| == |s.chunks|
    decreases |msgs| - k
  {
    if k == |msgs| then s else CompleteFrom(CompleteOne(s, msgs[k]), msgs, k + 1)
  }

  function PhaseAfter(phase: Phase, missing: nat): Phase {
    if missing == 0 then Done else if missing < ENDGAME_THRESHOLD then Endgame else phase
  }

  function ProcessCompletions(s: State, msgs: seq<Completion>): (r: State)
    requires Wf(s)
    requires forall i :: 0 <= i < |msgs| ==> msgs[i].chunk < |s.chunks|
    ensures Wf(r)
  {
    var r := CompleteFrom(s, msgs, 0);
    r.(phase := PhaseAfter(r.phase, r.missing),
       effects := if r.missing == 0 then r.effects + [BroadcastNotInterested] else r.effects)
  }

  function Zeros<T>(xs: seq<T>): seq<nat> { seq(|xs|, _ => 0) }
  function Falses<T>(xs: seq<T>): seq<bool> { seq(|xs|, _ => false) }

  /** Chunk c with nothing requested and nothing done. */
  function Cleared(s: State, c: nat): (r: State)
    requires Wf(s) && c < |s.chunks|
    ensures Wf(r)
  {
    s.(req := s.req[c := Falses(s.req[c])],
       reqTime := s.reqTime[c := Zeros(s.reqTime[c])],
       done := s.done[c := Falses(s.done[c])],
       doneCount := s.doneCount[c := 0],
       reqCount := s.reqCount[c := 0])
  }

  function VerifyFailed(s: State, c: nat): (r: State)
    requires Wf(s) && c < |s.chunks|
    ensures Wf(r)
  {
    Cleared(s, c).(chunks := s.chunks[c := Missing],
                   active := if c in s.active then s.active else s.active + [c])
  }

  function MarkOne(s: State, c: nat): (r: State)
    requires Wf(s) && c < |s.chunks|
    ensures Wf(r)
  {
    if s.chunks[c] == Complete then s
    else s.(missing := if s.chunks[c] == Missing then Dec32(s.missing) else s.missing,
            chunks := s.chunks[c := Complete],
            active := SwapRemove(s.active, c),
            reqCount := s.reqCount[c := 0])
  }

  function MarkFrom(s: State, bits: seq<bool>, k: nat): (r: State)
    requires Wf(s)
    ensures Wf(r) && |r.chunks| == |s.chunks|
    decreases |bits| - k
  {
    if k >= |bits| || k >= |s.chunks| then s
    else MarkFrom(if bits[k] then MarkOne(s, k) else s, bits, k + 1)
  }

  function MarkAllComplete(s: State, bits: seq<bool>): (r: State)
    requires Wf(s)
    ensures Wf(r)
  {
    var r := MarkFrom(s, bits, 0);
    r.(phase := PhaseAfter(r.phase, r.missing))
  }

  // ---------------------------------------------------------------- peer events

  predicate WantsPeer(s: State, slot: nat)
  {
    match FindSlot(s.peers, slot)
    case None => false
    case Some(p) => exists c :: 0 <= c < |s.chunks| && Advertises(s.peers[p], c) && s.chunks[c] != Complete
  }

  function CheckInterest(s: State, slot: nat): State {
    if s.canDecline && !WantsPeer(s, slot) then s.(effects := s.effects + [NotInterested(slot)]) else s
  }

  function AddBits(availability: seq<nat>, bits: seq<bool>): seq<nat> {
    seq(|availability|, c requires 0 <= c < |availability| =>
      availability[c] + (if c < |bits| && bits[c] then 1 else 0))
  }

  function NoteBitfield(s: State, p: nat, bits: seq<bool>): (r: State)
    requires Wf(s) && p < |s.peers|
    ensures Wf(r) && |r.peers| == |s.peers|
  {
    s.(peers := s.peers[p := s.peers[p].(bitfield := bits)], availability := AddBits(s.availability, bits))
  }

  function OnBitfield(s: State, slot: nat, bits: seq<bool>, now: nat): (r: State)
    requires Wf(s)
    ensures Wf(r)
  {
    match FindSlot(s.peers, slot)
    case None => s
    case Some(p) =>
      Rebalance(CheckInterest(NoteBitfield(s, p, bits), slot), p, now, 16)
  }

  /** Peer p now advertises c. */
  function NoteHave(s: State, p: nat, c: nat): (r: State)
    requires Wf(s) && p < |s.peers| && c < |s.peers[p].bitfield|
    ensures Wf(r) && |r.peers| == |s.peers|
  {
    if s.peers[p].bitfield[c] then s
    else s.(peers := s.peers[p := s.peers[p].(bitfield := s.peers[p].bitfield[c := true])],
            availability := if c < |s.availability|
                            then s.availability[c := s.availability[c] + 1] else s.availability)
  }

  function OnHave(s: State, slot: nat, c: nat, now: nat): (r: State)
    requires Wf(s)
    ensures Wf(r)
  {
    match FindSlot(s.peers, slot)
    case None => s
    case Some(p) =>
      if c >= |s.peers[p].bitfield| then s
      else
        Rebalance(CheckInterest(NoteHave(s, p, c), slot), p, now, 8)
  }

  function NewPeer(slot: nat, speed: nat, n: nat): PeerSlot {
    PeerSlot(slot, 0, 0, 0, speed, speed, 128, true, seq(n, _ => false), map[])
  }

  function OnPeerAdded(s: State, slot: nat, speed: nat): (r: State)
    requires Wf(s)
    ensures Wf(r)
  {
    s.(peers := s.peers + [NewPeer(slot, speed, |s.availability|)])
  }

  function UpdatePeer(s: State, slot: nat, f: PeerSlot -> PeerSlot): (r: State)
    requires Wf(s)
    requires forall peer :: f(peer).inFlight == peer.inFlight
    ensures Wf(r)
  {
    match FindSlot(s.peers, slot)
    case None => s
    case Some(p) => s.(peers := s.peers[p := f(s.peers[p])])
  }

  function OnPeerSpeed(s: State, slot: nat, speed: nat): (r: State)
    requires Wf(s)
    ensures Wf(r)
  {
    UpdatePeer(s, slot, (peer: PeerSlot) => peer.(speed := speed, speedReported := speed))
  }

  function OnChokeChange(s: State, slot: nat, choking: bool): (r: State)
    requires Wf(s)
    ensures Wf(r)
  {
    UpdatePeer(s, slot, (peer: PeerSlot) => peer.(choking := choking))
  }

  /** The session's periodic evaluation writes its window, timeout count and latency here. */
  function OnTune(s: State, slot: nat, cap: nat, timeouts: nat, rttUs: nat): (r: State)
    requires Wf(s)
    ensures Wf(r)
  {
    UpdatePeer(s, slot, (peer: PeerSlot) => peer.(cap := cap, timeouts := timeouts, rttUs := rttUs))
  }

  function SubBits(availability: seq<nat>, peer: PeerSlot): seq<nat> {
    seq(|availability|, c requires 0 <= c < |availability| =>
      if Advertises(peer, c) then Dec32(availability[c]) else availability[c])
  }

  /** Row c of the request table with the given begins released. */
  function ClearBits(row: seq<bool>, begins: set<nat>): seq<bool> {
    seq(|row|, i requires 0 <= i < |row| => row[i] && BeginOf(i) !in begins)
  }

  function ClearTimes(row: seq<bool>, times: seq<nat>, begins: set<nat>): seq<nat>
    requires |row| == |times|
  {
    seq(|row|, i requires 0 <= i < |row| => if row[i] && BeginOf(i) in begins then 0 else times[i])
  }

  function ReleaseCount(row: seq<bool>, begins: set<nat>, count: nat): nat {
    MinusFloor(count, CountTrue(row) - CountTrueClear(row, begins))
  }

  function CountTrueClear(row: seq<bool>, begins: set<nat>): (n: nat)
    ensures n <= CountTrue(row)
  {
    CountTrueMonotone(ClearBits(row, begins), row);
    CountTrue(ClearBits(row, begins))
  }

  function ReleasedRow(s: State, m: map<nat, set<nat>>, c: nat): (r: seq<bool>)
    requires Wf(s) && c < |s.chunks|
    ensures |r| == |s.req[c]|
  {
    if c in m then ClearBits(s.req[c], m[c]) else s.req[c]
  }

  function ReleasedTimes(s: State, m: map<nat, set<nat>>, c: nat): (r: seq<nat>)
    requires Wf(s) && c < |s.chunks|
    ensures |r| == |s.reqTime[c]|
  {
    if c in m then ClearTimes(s.req[c], s.reqTime[c], m[c]) else s.reqTime[c]
  }

  function ReleasedCount(s: State, m: map<nat, set<nat>>, c: nat): nat
    requires Wf(s) && c < |s.chunks|
  {
    if c in m then ReleaseCount(s.req[c], m[c], s.reqCount[c]) else s.reqCount[c]
  }

  function ReleasedChunk(s: State, m: map<nat, set<nat>>, c: nat): ChunkState
    requires Wf(s) && c < |s.chunks|
  {
    if c in m && s.chunks[c] != Complete && ReleasedCount(s, m, c) == 0 then Missing else s.chunks[c]
  }

  /** Gives back every request recorded in m. */
  function Release(s: State, m: map<nat, set<nat>>): (r: State)
    requires Wf(s)
    ensures Wf(r)
  {
    var n := |s.chunks|;
    s.(req := seq(n, c requires 0 <= c < n => ReleasedRow(s, m, c)),
       reqTime := seq(n, c requires 0 <= c < n => ReleasedTimes(s, m, c)),
       reqCount := seq(n, c requires 0 <= c < n => ReleasedCount(s, m, c)),
       chunks := seq(n, c requires 0 <= c < n => ReleasedChunk(s, m, c)))
  }

  function WithoutPeer(s: State, p: nat): (r: State)
    requires Wf(s) && p < |s.peers|
    ensures Wf(r)
  {
    var s1 := Release(s.(availability := SubBits(s.availability, s.peers[p])), s.peers[p].inFlight);
    s1.(peers := s.peers[..p] + s.peers[p + 1..])
  }

  function OnPeerRemoved(s: State, slot: nat): (r: State)
    requires Wf(s)
    ensures Wf(r)
  {
    match FindSlot(s.peers, slot)
    case None => s
    case Some(p) => WithoutPeer(s, p)
  }

  /** The peer no longer has (c, begin) outstanding. */
  function Land(peer: PeerSlot, c: nat, begin: nat): PeerSlot {
    var left := Flying(peer, c) - {begin};
    peer.(pending := MinusFloor(peer.pending, 1),
          inFlight := if left == {} then peer.inFlight - {c} else peer.inFlight[c := left])
  }

  lemma LandInRange(s: State, p: nat, c: nat, begin: nat)
    requires Wf(s) && p < |s.peers|
    ensures FlightsInRange(s.subBlocks, |s.chunks|, Land(s.peers[p], c, begin).inFlight)
  {
    assert FlightsInRange(s.subBlocks, |s.chunks|, s.peers[p].inFlight);
  }

  function MarkDone(s: State, c: nat, sub: nat): (r: State)
    requires Wf(s)
    ensures Wf(r) && r == s.(done := r.done, doneCount := r.doneCount)
  {
    if c < |s.done| && sub < |s.done[c]| && !s.done[c][sub]
    then s.(done := Put(s.done, c, sub, true), doneCount := s.doneCount[c := s.doneCount[c] + 1])
    else s
  }

  /** Peer p delivered (c, begin). */
  function Landed(s: State, p: nat, c: nat, begin: nat): (r: State)
    requires Wf(s) && p < |s.peers|
    ensures Wf(r) && |r.peers| == |s.peers|
  {
    LandInRange(s, p, c, begin);
    MarkDone(s, c, SubOf(begin)).(peers := s.peers[p := Land(s.peers[p], c, begin)])
  }

  function OnPiece(s: State, slot: nat, c: nat, begin: nat, now: nat): (r: State)
    requires Wf(s)
    ensures Wf(r)
  {
    match FindSlot(s.peers, slot)
    case None => s
    case Some(p) =>
      if s.peers[p].pending == 0 then s
      else
        var s1 := Landed(s, p, c, begin);
        if s1.phase != Done then ScheduleForPeer(s1, p, now) else s1
  }

  function OnTimeout(s: State, c: nat, begin: nat): (r: State)
    requires Wf(s)
    ensures Wf(r)
  {
    var sub := SubOf(begin);
    if c >= |s.chunks| || s.chunks[c] == Complete || sub >= Total(s, c) then s
    else s.(req := Put(s.req, c, sub, false),
            reqCount := s.reqCount[c := MinusFloor(s.reqCount[c], if s.req[c][sub] then 1 else 0)],
            reqTime := Put(s.reqTime, c, sub, 0))
  }

  // ---------------------------------------------------------------- set-up

  function Init(n: nat, localSpeed: nat): (r: State)
    ensures Wf(r)
  {
    State(seq(n, _ => Missing), [], seq(n, _ => 0), seq(n, i => i),
          seq(n, _ => []), seq(n, _ => []), seq(n, _ => []), seq(n, _ => 0), seq(n, _ => 0),
          [], Normal, n, localSpeed, false, false, [])
  }

  /** `(size + 16383) / 16384` on 32-bit unsigned values. */
  function SubBlockCount(size: nat): nat { (size + 16383) % 0x1_0000_0000 / 16384 }

  function SetChunkSizes(s: State, sizes: seq<nat>): (r: State)
    requires Wf(s) && s.subBlocks == []
    ensures Wf(r)
  {
    var n := |s.chunks|;
    var counts := seq(|sizes|, i requires 0 <= i < |sizes| => SubBlockCount(sizes[i]));
    s.(subBlocks := counts,
       done := seq(n, c requires 0 <= c < n => seq(TotalIn(counts, c), _ => false)),
       req := seq(n, c requires 0 <= c < n => seq(TotalIn(counts, c), _ => false)),
       reqTime := seq(n, c requires 0 <= c < n => seq(TotalIn(counts, c), _ => 0)))
  }
}
