/** Runs of the scheduler on which a request counter is not the number of requested sub-blocks, and
    one on which the availability of a chunk is not the number of its advertisers. */
module SchedulerWitness {
  import opened Counting
  import opened Sorting
  import opened SchedulerModel
  import opened SchedulerInvariant
  import opened SchedulerRuns
  import opened SchedulerEvents
  import opened SchedulerCounters

  /** Event e takes s to s1. */
  ghost predicate Leads(s: State, e: Event, s1: State) {
    Wf(s) && Wf(s1) && Enabled(s, e) && Apply(s, e) == s1
  }

  /** Some run leads from s to r. */
  ghost predicate Leadsto(s: State, r: State) { Wf(s) && exists events :: Reaches(s, events, r) }

  lemma Here(s: State)
    requires Wf(s)
    ensures Leadsto(s, s)
  {
    assert Reaches(s, [], s);
  }

  lemma Before(s: State, e: Event, s1: State, r: State)
    requires Leads(s, e, s1) && Leadsto(s1, r)
    ensures Leadsto(s, r)
  {
    var events :| Reaches(s1, events, r);
    assert ([e] + events)[1..] == events;
    assert Reaches(s, [e] + events, r);
  }

  lemma PutFirst<T>(a: T, b: T, v: T)
    ensures Put([[a], [b]], 0, 0, v) == [[v], [b]]
  {
    assert [a][0 := v] == [v];
  }

  lemma PutSecond<T>(a: T, b: T, v: T)
    ensures Put([[a], [b]], 1, 0, v) == [[a], [v]]
  {
    assert [b][0 := v] == [v];
  }

  // ---------------------------------------------------------------- two chunks and a full source

  /** The full source with the given requests outstanding. */
  function Source(pending: nat, choking: bool, bits: seq<bool>, inFlight: map<nat, set<nat>>): PeerSlot {
    PeerSlot(0, pending, 0, 0, 0, 0, 128, choking, bits, inFlight)
  }

  /** Two chunks of one sub-block each, nothing requested. */
  function Idle(availability: seq<nat>, peers: seq<PeerSlot>): State {
    State([Missing, Missing], [1, 1], availability, [0, 1], [[false], [false]], [[false], [false]], [[0], [0]],
          [0, 0], [0, 0], peers, Normal, 2, 0, false, false, [])
  }

  /** Both sub-blocks requested from the source. */
  function Busy(): State {
    State([Downloading, Downloading], [1, 1], [1, 1], [0, 1], [[false], [false]], [[true], [true]], [[1], [1]],
          [0, 0], [1, 1], [Source(2, false, [true, true], map[0 := {0}, 1 := {0}])], Normal, 2, 0, false, false,
          [Request(0, 0, 0), Request(0, 1, 0)])
  }

  lemma Boot()
    ensures Leads(Init(2, 0), ChunkSizes([1, 1]), Idle([0, 0], []))
  {
    var r := SetChunkSizes(Init(2, 0), [1, 1]);
    assert r.subBlocks == [1, 1] && r.active == [0, 1] && r.chunks == [Missing, Missing];
    assert r.req[0] == [false] && r.req[1] == [false] && r.reqTime[0] == [0] && r.reqTime[1] == [0];
    assert r.req == [[false], [false]] && r.done == [[false], [false]] && r.reqTime == [[0], [0]];
    assert r.availability == [0, 0] && r.doneCount == [0, 0] && r.reqCount == [0, 0];
  }

  lemma Joined()
    ensures Leads(Idle([0, 0], []), PeerAdded(0, 0), Idle([0, 0], [Source(0, true, [false, false], map[])]))
  {
    assert NewPeer(0, 0, 2) == Source(0, true, [false, false], map[]);
  }

  lemma Unchoked()
    ensures Leads(Idle([0, 0], [Source(0, true, [false, false], map[])]), ChokeChange(0, false),
                  Idle([0, 0], [Source(0, false, [false, false], map[])]))
  {
  }

  lemma FullSource(pending: nat, inFlight: map<nat, set<nat>>)
    ensures IsFullSource(Source(pending, false, [true, true], inFlight), 2)
    ensures HaveCount(Source(pending, false, [true, true], inFlight)) == 2
  {
    assert [true, true][..1] == [true] && [true][..0] == [];
    assert CountTrue([true]) == 1 && CountTrue([true, true]) == 2;
  }

  /** A BITFIELD of everything, the first or a repeated one, adds one to both counts. */
  lemma Advertised(bits: seq<bool>, k: nat, now: nat)
    requires |bits| == 2
    ensures Leads(Idle([k, k], [Source(0, false, bits, map[])]), Bitfield(0, [true, true], now),
                  Idle([k + 1, k + 1], [Source(0, false, [true, true], map[])]))
  {
    FullSource(0, map[]);
    assert AddBits([k, k], [true, true]) == [k + 1, k + 1];
  }

  lemma OneBest(peers: seq<PeerSlot>, c: nat)
    requires |peers| == 1 && Serviceable(peers[0], c) && peers[0].rttUs == 0 && peers[0].pending < 100
    ensures SelectBest(peers, 0, c) == Some(peers[0].slotId)
  {
    assert BestOf(peers, 0, c, 0) == Winner(INT_MIN, SIZE_MAX, 0);
    assert Score(peers[0], 0) > INT_MIN;
  }

  /** After one sub-block was issued. */
  function Half(): State {
    State([Downloading, Missing], [1, 1], [1, 1], [0, 1], [[false], [false]], [[true], [false]], [[1], [0]],
          [0, 0], [1, 0], [Source(1, false, [true, true], map[0 := {0}])], Normal, 2, 0, false, false,
          [Request(0, 0, 0)])
  }

  lemma FirstIssued()
    ensures var s := Idle([1, 1], [Source(0, false, [true, true], map[])]); Wf(s) && TryChunk(s, 0, 0, 1, 128) == Half()
  {
    var s := Idle([1, 1], [Source(0, false, [true, true], map[])]);
    OneBest(s.peers, 0);
    assert CanIssue(s, 0, 0);
    var s1 := s.(chunks := [Downloading, Missing]);
    assert s.chunks[0 := Downloading] == [Downloading, Missing];
    var s2 := IssueOne(s1, 0, 0, 0, 1);
    assert s2 == Half() by {
      PutFirst(false, false, true);
      PutFirst(0, 0, 1);
      assert {} + {0} == {0};
      assert Launch(s1.peers[0], 0, 0) == Source(1, false, [true, true], map[0 := {0}]);
    }
    assert IssueFrom(s1, 0, 0, 0, 1, 128) == IssueFrom(s2, 0, 0, 1, 1, 128) == s2;
  }

  lemma SecondIssued()
    ensures Wf(Half()) && TryChunk(Half(), 0, 1, 1, 128) == Busy()
  {
    var s := Half();
    OneBest(s.peers, 1);
    assert CanIssue(s, 0, 1);
    var s1 := s.(chunks := [Downloading, Downloading]);
    assert s.chunks[1 := Downloading] == [Downloading, Downloading];
    var s2 := IssueOne(s1, 0, 1, 0, 1);
    assert s2 == Busy() by {
      PutSecond(true, false, true);
      PutSecond(1, 0, 1);
      assert {} + {0} == {0};
      assert Launch(s1.peers[0], 1, 0) == Source(2, false, [true, true], map[0 := {0}, 1 := {0}]);
    }
    assert IssueFrom(s1, 0, 1, 0, 1, 128) == IssueFrom(s2, 0, 1, 1, 1, 128) == s2;
  }

  lemma SortTwo(a: (nat, nat), b: (nat, nat))
    requires ByFirst(a, b)
    ensures StableSort([a, b], ByFirst) == [a, b]
  {
    assert [a, b][..1] == [a] && [a][..0] == [];
    assert StableSort([a], ByFirst) == Insert(StableSort([], ByFirst), a, ByFirst) == [a];
  }

  lemma Ordered(s: State)
    requires s == Idle([1, 1], [Source(0, false, [true, true], map[])]) && Wf(s)
    ensures RarestFirst(s, 0) == [(1, 0), (1, 1)]
  {
    assert Wanted(s, 0, 0) && Wanted(s, 0, 1);
    assert Candidates(s, 0, 0) == [];
    assert Candidates(s, 0, 1) == [(1, 0)];
    assert Candidates(s, 0, 2) == [(1, 0), (1, 1)];
    SortTwo((1, 0), (1, 1));
  }

  lemma ScheduleTwo(s: State, m: State, r: State, a: (nat, nat), b: (nat, nat), now: nat)
    requires Wf(s) && |s.peers| == 1 && RarestFirst(s, 0) == [a, b] && EffectiveCap(s, 0) == 128
    requires s.peers[0].pending < 128 && TryChunk(s, 0, a.1, now, 128) == m
    requires Wf(m) && |m.peers| == 1 && m.peers[0].pending < 128 && TryChunk(m, 0, b.1, now, 128) == r
    ensures ScheduleForPeer(s, 0, now) == r
  {
    assert ScheduleList(s, 0, [a, b], 0, now, 128) == ScheduleList(m, 0, [a, b], 1, now, 128);
    assert ScheduleList(m, 0, [a, b], 1, now, 128) == ScheduleList(r, 0, [a, b], 2, now, 128) == r;
  }

  lemma TickOfOne(s: State, r: State, now: nat)
    requires Wf(s) && |s.peers| == 1 && s.phase == Normal && IsFullSource(s.peers[0], |s.chunks|)
    requires ScheduleForPeer(s, 0, now) == r && r.phase == Normal
    ensures Tick(s, now) == r
  {
    assert RebalanceFrom(s, 0, now) == RebalanceFrom(s, 1, now) == s;
    assert ScheduleAllFrom(s, 0, now) == ScheduleAllFrom(r, 1, now) == r;
  }

  lemma Requested(s: State, h: State, b: State)
    requires s == Idle([1, 1], [Source(0, false, [true, true], map[])]) && h == Half() && b == Busy()
    ensures Leads(s, Ticked(1), b)
  {
    ScheduledBoth(s, h, b);
    FullSource(0, map[]);
    TickOfOne(s, b, 1);
    TickLeads(s, b, 1);
  }

  lemma TickLeads(s: State, r: State, now: nat)
    requires Wf(s) && Wf(r) && Tick(s, now) == r
    ensures Leads(s, Ticked(now), r)
  {
    TickIsApply(s, now);
  }

  lemma TickIsApply(s: State, now: nat)
    requires Wf(s)
    ensures Enabled(s, Ticked(now)) && Apply(s, Ticked(now)) == Tick(s, now)
  {
  }

  lemma ScheduledBoth(s: State, h: State, b: State)
    requires s == Idle([1, 1], [Source(0, false, [true, true], map[])]) && h == Half() && b == Busy()
    ensures Wf(s) && Wf(b) && ScheduleForPeer(s, 0, 1) == b
  {
    FullSource(0, map[]);
    FirstIssued();
    SecondIssued();
    Ordered(s);
    ScheduleTwo(s, h, b, (1, 0), (1, 1), 1);
  }

  /** A scheduler with two chunks meets a full source. */
  lemma SourceIsReachable(r: State)
    requires Leadsto(Idle([1, 1], [Source(0, false, [true, true], map[])]), r)
    ensures Leadsto(Init(2, 0), r)
  {
    var s1 := Idle([0, 0], []);
    var s2 := Idle([0, 0], [Source(0, true, [false, false], map[])]);
    var s3 := Idle([0, 0], [Source(0, false, [false, false], map[])]);
    var s4 := Idle([1, 1], [Source(0, false, [true, true], map[])]);
    Advertised([false, false], 0, 1); Before(s3, Bitfield(0, [true, true], 1), s4, r);
    Unchoked(); Before(s2, ChokeChange(0, false), s3, r);
    Joined(); Before(s1, PeerAdded(0, 0), s2, r);
    Boot(); Before(Init(2, 0), ChunkSizes([1, 1]), s1, r);
  }

  /** It asks it for both. */
  lemma BusyIsReachable(r: State)
    requires Leadsto(Busy(), r)
    ensures Leadsto(Init(2, 0), r)
  {
    var s := Idle([1, 1], [Source(0, false, [true, true], map[])]);
    Requested(s, Half(), Busy()); Before(s, Ticked(1), Busy(), r);
    SourceIsReachable(r);
  }

  // ---------------------------------------------------------------- a BITFIELD counted twice

  lemma CountedTwice(r: State)
    requires |r.availability| == 2 && r.availability[0] == 2 && |r.peers| == 1
    ensures !AvailabilityExact(r)
  {
    assert r.peers[..0] == [];
    assert Advertisers(r.peers, 0) <= 1;
    assert Excess(r, 0) > 0;
  }

  /** A state of some run in which the availability of a chunk is more than the number of peers that
      advertise it: one peer sent its BITFIELD twice. */
  lemma RepeatedBitfieldCountsTwice() returns (r: State)
    ensures Leadsto(Init(2, 0), r) && !AvailabilityExact(r)
  {
    var s := Idle([1, 1], [Source(0, false, [true, true], map[])]);
    r := Idle([2, 2], [Source(0, false, [true, true], map[])]);
    Advertised([true, true], 1, 2);
    Here(r);
    Before(s, Bitfield(0, [true, true], 2), r, r);
    SourceIsReachable(r);
    CountedTwice(r);
  }

  // ---------------------------------------------------------------- rebalancing marks, nobody counts

  /** Chunk 0 is no longer marked as requested, and the source still has it in flight. */
  function Lapsed(first: ChunkState): State {
    Busy().(chunks := [first, Downloading], req := [[false], [true]], reqTime := [[0], [1]], reqCount := [0, 1])
  }

  lemma TimedOutOnce()
    ensures Leads(Busy(), TimedOut(0, 0), Lapsed(Downloading))
  {
    PutFirst(true, true, false);
    PutFirst(1, 1, 0);
  }

  lemma FailedOnce(s: State, r: State)
    requires s == Busy() && r == Lapsed(Missing)
    ensures Leads(s, Failed(0), r)
  {
    assert Falses([true]) == [false] && Falses([false]) == [false] && Zeros([1]) == [0];
    assert s.chunks[0 := Missing] == r.chunks && s.req[0 := [false]] == r.req && s.reqTime[0 := [0]] == r.reqTime;
    assert s.done[0 := [false]] == r.done && s.reqCount[0 := 0] == r.reqCount && s.doneCount[0 := 0] == r.doneCount;
    assert 0 in s.active;
    FailLeads(s, 0, r);
  }

  lemma FailLeads(s: State, c: nat, r: State)
    requires Wf(s) && c < |s.chunks| && VerifyFailed(s, c) == r
    ensures Leads(s, Failed(c), r)
  {
  }

  function Newcomer(bits: seq<bool>): PeerSlot { PeerSlot(1, 0, 0, 0, 0, 0, 128, true, bits, map[]) }

  function Joined2(first: ChunkState, bits: seq<bool>, availability: seq<nat>): State {
    Lapsed(first).(peers := Lapsed(first).peers + [Newcomer(bits)], availability := availability)
  }

  lemma NewcomerJoins(first: ChunkState)
    ensures Leads(Lapsed(first), PeerAdded(1, 0), Joined2(first, [false, false], [1, 1]))
  {
    assert NewPeer(1, 0, 2) == Newcomer([false, false]);
  }

  /** The newcomer's BITFIELD moves the request to it: the bit is set again, the counter is not. */
  lemma NewcomerTakesOver(first: ChunkState, s: State, m: State) returns (r: State)
    requires first != Complete
    requires s == Joined2(first, [false, false], [1, 1]) && m == Joined2(first, [true, false], [2, 1])
    ensures Leads(s, Bitfield(1, [true, false], 2), r)
    ensures |r.req| == |r.reqCount| == 2 && r.reqCount[0] == 0 && |r.req[0]| == 1 && r.req[0][0]
  {
    NewcomerNoted(first, s, m);
    var m1 := NewcomerMoves(first, m);
    r := Rebalance(m, 1, 2, 16);
    BitfieldLeads(s, 1, [true, false], 2, 1, m);
    BitStays(m1, 1, 2, 15);
  }

  lemma BitfieldLeads(s: State, slot: nat, bits: seq<bool>, now: nat, p: nat, m: State)
    requires Wf(s) && Wf(m) && FindSlot(s.peers, slot) == Some(p) && p < |m.peers|
    requires CheckInterest(NoteBitfield(s, p, bits), slot) == m
    ensures Leads(s, Bitfield(slot, bits, now), Rebalance(m, p, now, 16))
  {
  }

  lemma BitStays(m: State, p: nat, now: nat, left: nat)
    requires Wf(m) && p < |m.peers| && |m.req| == 2 && |m.req[0]| == 1 && m.req[0][0] && m.reqCount[0] == 0
    ensures var r := MoveLoop(m, p, now, left);
            |r.req| == |r.reqCount| == 2 && r.reqCount[0] == 0 && |r.req[0]| == 1 && r.req[0][0]
  {
    var r, sent := MoveLoopBits(m, p, now, left, 0);
  }

  lemma HalfSource()
    ensures HaveCount(Newcomer([true, false])) == 1
  {
    assert [true, false][..1] == [true] && [true][..0] == [];
    assert CountTrue([true]) == 1 && CountTrue([true, false]) == 1;
  }

  lemma NewcomerMoves(first: ChunkState, m: State) returns (m1: State)
    requires first != Complete && m == Joined2(first, [true, false], [2, 1])
    ensures Wf(m) && Wf(m1) && |m1.peers| == 2 && Rebalance(m, 1, 2, 16) == MoveLoop(m1, 1, 2, 15)
    ensures m1.req == [[true], [true]] && m1.reqCount == [0, 1]
  {
    NewcomerReady(first, m);
    m1 := MoveOne(m, 0, 1, 0, 0, 2);
    FirstMove(m, m1, 2, 16);
    PutFirst(false, true, true);
  }

  lemma NewcomerReady(first: ChunkState, m: State)
    requires m == Joined2(first, [true, false], [2, 1])
    ensures Wf(m) && |m.peers| == 2 && m.active != [] && m.active[0] == 0 && m.peers[1].pending < m.peers[1].cap
    ensures !IsFullSource(m.peers[1], |m.chunks|) && CanYield(m, 1, 0, 0) && Advertises(m.peers[1], 0)
    ensures Flying(m.peers[0], 0) == {0} && MinOf({0}) == 0
  {
    HalfSource();
    FullSource(2, map[0 := {0}, 1 := {0}]);
    assert 0 in {0};
  }

  lemma NewcomerNoted(first: ChunkState, s: State, m: State)
    requires s == Joined2(first, [false, false], [1, 1]) && m == Joined2(first, [true, false], [2, 1])
    ensures Wf(s) && Wf(m) && FindSlot(s.peers, 1) == Some(1)
    ensures CheckInterest(NoteBitfield(s, 1, [true, false]), 1) == m
  {
    assert AddBits([1, 1], [true, false]) == [2, 1];
    assert s.peers[1 := s.peers[1].(bitfield := [true, false])] == m.peers;
  }

  /** The first source has the first chunk in flight and the receiver wants it. */
  lemma FirstMove(m: State, m1: State, now: nat, left: nat)
    requires Wf(m) && |m.peers| == 2 && left > 0 && m.active != [] && m.peers[1].pending < m.peers[1].cap
    requires Advertises(m.peers[1], m.active[0]) && m.chunks[m.active[0]] != Complete
    requires CanYield(m, 1, 0, m.active[0])
    requires var begin := MinOf(Flying(m.peers[0], m.active[0]));
             && SubOf(begin) < Total(m, m.active[0]) && !m.done[m.active[0]][SubOf(begin)]
             && m1 == MoveOne(m, 0, 1, m.active[0], begin, now)
    ensures Wf(m1) && |m1.peers| == 2 && MoveLoop(m, 1, now, left) == MoveLoop(m1, 1, now, left - 1)
  {
    assert ScanSources(m, 1, m.active[0], 0, now) == Scan(m1, true);
    assert ScanChunks(m, 1, 0, now) == Scan(m1, true);
  }

  ghost predicate CounterBehind(r: State) { |r.req| == |r.reqCount| == 2 && r.reqCount[0] < CountTrue(r.req[0]) }

  lemma OneBit(row: seq<bool>)
    requires |row| == 1 && row[0]
    ensures CountTrue(row) == 1
  {
    assert row == [true];
  }

  /** From the lapsed state a newcomer's BITFIELD makes a counter fall behind. */
  lemma LapsedFallsBehind(first: ChunkState) returns (r: State)
    requires first != Complete
    ensures Leadsto(Lapsed(first), r) && CounterBehind(r)
  {
    var s := Joined2(first, [false, false], [1, 1]);
    r := NewcomerTakesOver(first, s, Joined2(first, [true, false], [2, 1]));
    Here(r);
    Before(s, Bitfield(1, [true, false], 2), r, r);
    NewcomerJoins(first); Before(Lapsed(first), PeerAdded(1, 0), s, r);
    OneBit(r.req[0]);
  }

  /** A state of some run in which a counter is below the number of requested sub-blocks: a request
      that timed out was moved by rebalancing. */
  lemma RebalancingLeavesCounterBehind() returns (r: State)
    ensures Leadsto(Init(2, 0), r) && CounterBehind(r)
  {
    r := LapsedFallsBehind(Downloading);
    TimedOutOnce(); Before(Busy(), TimedOut(0, 0), Lapsed(Downloading), r);
    BusyIsReachable(r);
  }

  /** Another one, without a timeout: the chunk failed its hash while a request was in flight. */
  lemma FailureLeavesCounterBehind() returns (r: State)
    ensures Leadsto(Init(2, 0), r) && CounterBehind(r)
  {
    r := LapsedFallsBehind(Missing);
    FailedOnce(Busy(), Lapsed(Missing)); Before(Busy(), Failed(0), Lapsed(Missing), r);
    BusyIsReachable(r);
  }

  /** And one without any rebalancing: the chunk was completed. */
  lemma CompletionLeavesCounterBehind() returns (r: State)
    ensures Leadsto(Init(2, 0), r) && CounterBehind(r)
  {
    var msg := Completion(0, 0);
    assert Wf(Busy());
    r := Apply(Busy(), Completions([msg]));
    Here(r);
    Before(Busy(), Completions([msg]), r, r);
    BusyIsReachable(r);
    CompleteFromCounts(Busy(), [msg], 0, 0);
    assert 0 in Named([msg], 0);
    OneBit(r.req[0]);
  }
}
