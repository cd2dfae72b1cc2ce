/** Two runs of a download of one byte: a forged piece fails verification for good, and a forged
    duplicate replaces a byte that had passed. */
module PipelineWitness {
  import opened Counting
  import opened Sorting
  import opened Assembly
  import opened SchedulerModel
  import opened SchedulerInvariant
  import opened SchedulerEvents
  import opened Pipeline
  import opened PipelineInvariant
  import opened PipelineRuns
  import opened PipelineDuplicates
  import SchedulerWitness

  ghost predicate OneByte(cfg: Config) {
    cfg.lens == [1] && |cfg.expected| == 1 && cfg.workers == 1 && cfg.restored == {}
  }

  // ---------------------------------------------------------------- from the request to the verdict

  /** The byte has been requested from peer 0 and everything else is at rest. */
  ghost predicate Ready(cfg: Config, s: Sys) {
    && OneByte(cfg) && PipeInv(cfg, s) && Request(0, 0, 0) in s.sched.effects
    && s.queues == [[]] && s.pcs == [Idle] && s.verifyQ == [] && s.verifiers == [Free] && s.results == []
    && |s.asm[0].mem| == 1 && s.asm[0].marked == {} && s.asm[0].pending == 1
    && s.passes == [0] && s.fails == [0]
  }

  function Byte(b: byte): Piece { Piece(0, 0, [b], 0) }

  lemma OneSlot(cfg: Config)
    requires OneByte(cfg)
    ensures SlotCount(cfg, 0) == 1 && SlotLength(1, SUB_BLOCK_SIZE, 0) == 1 && Route(cfg, 0, 0) == 0
  {
  }

  lemma Takes(cfg: Config, s: Sys, b: byte)
    requires OneByte(cfg) && s.queues == [[Byte(b)]] && s.pcs == [Idle]
    ensures CanDo(cfg, s, Take(0)) && Do(cfg, s, Take(0)) == s.(queues := [[]], pcs := [Copying(Byte(b), 0)])
  {
    var none: seq<Piece> := [];
    assert [Byte(b)][1..] == none;
    assert s.queues[0 := none] == [none];
  }

  lemma Copies(cfg: Config, s: Sys, b: byte)
    requires s.pcs == [Copying(Byte(b), 0)] && |s.asm| == 1 && |s.asm[0].mem| == 1
    ensures CanDo(cfg, s, CopyByte(0))
    ensures Do(cfg, s, CopyByte(0)) == s.(asm := [s.asm[0].(mem := [b])], pcs := [Copying(Byte(b), 1)])
  {
    assert s.asm[0].mem[0 := b] == [b];
  }

  lemma Marks(cfg: Config, s: Sys, b: byte)
    requires s.pcs == [Copying(Byte(b), 1)] && |s.asm| == 1 && s.asm[0].marked == {}
    ensures CanDo(cfg, s, Mark(0))
    ensures Do(cfg, s, Mark(0)) == s.(asm := [s.asm[0].(marked := {0})], pcs := [First(Byte(b))])
  {
    assert {} + {0} == {0} && SlotOf(Byte(b)) == 0;
  }

  lemma CountsDown(cfg: Config, s: Sys, b: byte)
    requires s.pcs == [First(Byte(b))] && |s.asm| == 1 && s.asm[0].pending == 1
    ensures CanDo(cfg, s, CountDown(0))
    ensures Do(cfg, s, CountDown(0)) == s.(asm := [s.asm[0].(pending := 0)], pcs := [Last(Byte(b))])
  {
  }

  lemma Reports(cfg: Config, s: Sys, b: byte)
    requires s.pcs == [Last(Byte(b))] && s.verifyQ == []
    ensures CanDo(cfg, s, Report(0)) && Do(cfg, s, Report(0)) == s.(verifyQ := [Completion(0, 0)], pcs := [Idle])
  {
    assert [] + [Completion(0, 0)] == [Completion(0, 0)];
  }

  /** The worker takes the byte, copies, marks, counts down and reports. */
  lemma Worked(cfg: Config, s: Sys, b: byte, r: Sys)
    requires OneByte(cfg) && s.queues == [[Byte(b)]] && s.pcs == [Idle] && s.verifyQ == []
    requires |s.asm| == 1 && |s.asm[0].mem| == 1 && s.asm[0].marked == {} && s.asm[0].pending == 1
    requires r == s.(queues := [[]], asm := [Asm([b], {0}, 0)], verifyQ := [Completion(0, 0)])
    ensures Leadsto(cfg, s, r)
  {
    Takes(cfg, s, b);
    var s1 := Do(cfg, s, Take(0));
    Copies(cfg, s1, b);
    var s2 := Do(cfg, s1, CopyByte(0));
    Marks(cfg, s2, b);
    var s3 := Do(cfg, s2, Mark(0));
    CountsDown(cfg, s3, b);
    var s4 := Do(cfg, s3, CountDown(0));
    Reports(cfg, s4, b);
    Here(cfg, r);
    Before(cfg, s4, Report(0), r, r);
    Before(cfg, s3, CountDown(0), s4, r);
    Before(cfg, s2, Mark(0), s3, r);
    Before(cfg, s1, CopyByte(0), s2, r);
    Before(cfg, s, Take(0), s1, r);
  }

  /** The verifier fetches the report, reads the byte and posts the verdict. */
  lemma Verified(cfg: Config, s: Sys, b: byte, r: Sys)
    requires OneByte(cfg) && s.verifyQ == [Completion(0, 0)] && s.verifiers == [Free] && s.results == []
    requires |s.asm| == 1 && s.asm[0].mem == [b]
    requires r == s.(verifyQ := [], results := [VerifyResult(0, 0, cfg.hash([b]) == cfg.expected[0])])
    ensures Leadsto(cfg, s, r)
  {
    var msg := Completion(0, 0);
    var s1 := s.(verifyQ := [], verifiers := [Reading(msg, [])]);
    var s2 := s1.(verifiers := [Reading(msg, [b])]);
    Here(cfg, r);
    assert [] + [b] == [b];
    assert DoPost(cfg, s2, 0) == r;
    Before(cfg, s2, Post(0), r, r);
    assert DoRead(s1, 0) == s2;
    Before(cfg, s1, ReadByte(0), s2, r);
    assert DoFetch(s, 0) == s1;
    Before(cfg, s, Fetch(0), s1, r);
  }

  lemma {:induction false} Onward(cfg: Config, s: Sys, steps: seq<Step>, m: Sys, r: Sys)
    requires Pipeline.Reaches(cfg, s, steps, m) && Leadsto(cfg, m, r)
    ensures Leadsto(cfg, s, r)
    decreases |steps|
  {
    if |steps| > 0 {
      Onward(cfg, Do(cfg, s, steps[0]), steps[1..], m, r);
      Before(cfg, s, steps[0], Do(cfg, s, steps[0]), r);
    }
  }

  lemma Then(cfg: Config, s: Sys, m: Sys, r: Sys)
    requires Leadsto(cfg, s, m) && Leadsto(cfg, m, r)
    ensures Leadsto(cfg, s, r)
  {
    var steps :| Pipeline.Reaches(cfg, s, steps, m);
    Onward(cfg, s, steps, m, r);
  }

  lemma LeadstoKeeps(cfg: Config, s: Sys, r: Sys)
    requires PipeInv(cfg, s) && Leadsto(cfg, s, r)
    ensures PipeInv(cfg, r)
  {
    var steps :| Pipeline.Reaches(cfg, s, steps, r);
    RunKeeps(cfg, s, steps, r);
  }

  /** One byte from the network to the verdict. */
  lemma Judged(cfg: Config, s: Sys, b: byte) returns (r: Sys)
    requires Ready(cfg, s)
    ensures Leadsto(cfg, s, r) && PipeInv(cfg, r) && Request(0, 0, 0) in r.sched.effects
    ensures r.results == [VerifyResult(0, 0, cfg.hash([b]) == cfg.expected[0])]
    ensures r.queues == [[]] && r.pcs == [Idle] && r.asm[0].mem == [b] && r.passes == [0] && r.fails == [0]
  {
    OneSlot(cfg);
    var step := Deliver(0, 0, 0, [b], 0);
    assert CanDeliver(cfg, s, Byte(b));
    var s1 := Do(cfg, s, step);
    EffectsGrow(cfg, s, step);
    assert [] + [Byte(b)] == [Byte(b)] && s1.queues == s.queues[0 := s.queues[0] + [Byte(b)]];
    var s2 := s1.(queues := [[]], asm := [Asm([b], {0}, 0)], verifyQ := [Completion(0, 0)]);
    r := s2.(verifyQ := [], results := [VerifyResult(0, 0, cfg.hash([b]) == cfg.expected[0])]);
    Worked(cfg, s1, b, s2);
    Verified(cfg, s2, b, r);
    Then(cfg, s1, s2, r);
    Before(cfg, s, step, s1, r);
    LeadstoKeeps(cfg, s, r);
  }

  /** The tick that settles the verdict. */
  lemma Closed(cfg: Config, s: Sys, passed: bool) returns (r: Sys)
    requires OneByte(cfg) && PipeInv(cfg, s) && s.results == [VerifyResult(0, 0, passed)] && s.passes == [0]
    requires s.fails == [0]
    ensures Leadsto(cfg, s, r) && PipeInv(cfg, r) && s.sched.effects <= r.sched.effects
    ensures r.asm == s.asm && r.queues == s.queues && r.pcs == s.pcs
    ensures if passed then r.passes == [1] else r.fails == [1]
  {
    r := SettledOne(cfg, s, VerifyResult(0, 0, passed), 0, false);
  }

  lemma SettledOne(cfg: Config, s: Sys, result: VerifyResult, now: nat, dead: bool) returns (r: Sys)
    requires PipeInv(cfg, s) && s.results == [result] && result.chunk < |cfg.lens|
    ensures Leadsto(cfg, s, r) && PipeInv(cfg, r) && s.sched.effects <= r.sched.effects
    ensures r.asm == s.asm && r.queues == s.queues && r.pcs == s.pcs
    ensures r.passes == (if result.passed then s.passes[result.chunk := s.passes[result.chunk] + 1] else s.passes)
    ensures r.fails == (if result.passed then s.fails else s.fails[result.chunk := s.fails[result.chunk] + 1])
  {
    r := SettledStep(cfg, s, now, dead);
    BooksOfOne(cfg, s, result, now, dead);
  }

  lemma SettledStep(cfg: Config, s: Sys, now: nat, dead: bool) returns (r: Sys)
    requires PipeInv(cfg, s)
    ensures CanSettle(cfg, s) && r == DoSettle(cfg, s, now, dead) && Leadsto(cfg, s, r) && PipeInv(cfg, r)
    ensures s.sched.effects <= r.sched.effects
  {
    var step := Settle(now, dead);
    TickNeverBlocked(cfg, s, now, dead);
    r := Do(cfg, s, step);
    EffectsGrow(cfg, s, step);
    StepKeeps(cfg, s, step);
    Here(cfg, r);
    Before(cfg, s, step, r, r);
  }

  lemma BooksOfOne(cfg: Config, s: Sys, result: VerifyResult, now: nat, dead: bool)
    requires CanSettle(cfg, s) && s.results == [result] && result.chunk < |cfg.lens|
    ensures var r, c := DoSettle(cfg, s, now, dead), result.chunk;
            && r.asm == s.asm && r.queues == s.queues && r.pcs == s.pcs
            && r.passes == (if result.passed then s.passes[c := s.passes[c] + 1] else s.passes)
            && r.fails == (if result.passed then s.fails else s.fails[c := s.fails[c] + 1])
  {
    TickKeeps(s.sched, now);
    SettleSingle(cfg, Settlement(Tick(s.sched, now), [], s.bytesDone, s.passes, s.fails), result);
  }

  lemma SettleSingle(cfg: Config, d: Settlement, result: VerifyResult)
    requires SettlementOk(cfg, d) && result.chunk < |cfg.lens|
    ensures SettleFrom(cfg, d, [result], 0) == SettleOne(cfg, d, result)
  {
    assert SettleFrom(cfg, d, [result], 0) == SettleFrom(cfg, SettleOne(cfg, d, result), [result], 1);
  }

  // ---------------------------------------------------------------- from the start to the request

  function Peer(pending: nat, choking: bool, bits: seq<bool>, inFlight: map<nat, set<nat>>): PeerSlot {
    PeerSlot(0, pending, 0, 0, 0, 0, 128, choking, bits, inFlight)
  }

  function Resting(availability: seq<nat>, peers: seq<PeerSlot>): State {
    State([Missing], [1], availability, [0], [[false]], [[false]], [[0]], [0], [0], peers, Normal, 1, 0, true, true, [])
  }

  function Asking(): State {
    State([Downloading], [1], [1], [0], [[false]], [[true]], [[1]], [0], [1],
          [Peer(1, false, [true], map[0 := {0}])], Normal, 1, 0, true, true, [Request(0, 0, 0)])
  }

  lemma Booted(cfg: Config)
    requires OneByte(cfg)
    ensures multiset([0]) == multiset(Init(1, 0).active) && BootScheduler(cfg, 0, [0], [false]) == Resting([0], [])
  {
    var s0 := Init(1, 0);
    assert s0.active == [0];
    var s1 := SetChunkSizes(s0, [1]);
    assert s1.req[0] == [false] && s1.done[0] == [false] && s1.reqTime[0] == [0];
    assert s1.req == [[false]] && s1.done == [[false]] && s1.reqTime == [[0]] && s1.subBlocks == [1];
    assert s1.chunks == [Missing] && s1.availability == [0] && s1.doneCount == [0] && s1.reqCount == [0];
  }

  lemma PeerJoins(s: State)
    requires s == Resting([0], [])
    ensures SchedulerWitness.Leads(s, PeerAdded(0, 0), Resting([0], [Peer(0, true, [false], map[])]))
  {
    assert NewPeer(0, 0, 1) == Peer(0, true, [false], map[]);
  }

  lemma PeerUnchokes(s: State)
    requires s == Resting([0], [Peer(0, true, [false], map[])])
    ensures SchedulerWitness.Leads(s, ChokeChange(0, false), Resting([0], [Peer(0, false, [false], map[])]))
  {
  }

  lemma PeerIsFull(pending: nat, inFlight: map<nat, set<nat>>)
    ensures HaveCount(Peer(pending, false, [true], inFlight)) == 1
  {
    assert [true][..0] == [];
  }

  lemma PeerAdvertises(s: State, m: State)
    requires s == Resting([0], [Peer(0, false, [false], map[])]) && m == Resting([1], [Peer(0, false, [true], map[])])
    ensures SchedulerWitness.Leads(s, Bitfield(0, [true], 1), m)
  {
    PeerIsFull(0, map[]);
    assert AddBits([0], [true]) == [1];
    assert NoteBitfield(s, 0, [true]) == m;
    assert Advertises(m.peers[0], 0) && m.chunks[0] != Complete;
    SchedulerWitness.BitfieldLeads(s, 0, [true], 1, 0, m);
  }

  lemma PeerIsAsked(s: State, r: State)
    requires s == Resting([1], [Peer(0, false, [true], map[])]) && r == Asking()
    ensures Wf(s) && Wf(r) && TryChunk(s, 0, 0, 1, 128) == r
  {
    SchedulerWitness.OneBest(s.peers, 0);
    assert CanIssue(s, 0, 0);
    var s1 := s.(chunks := [Downloading]);
    assert s.chunks[0 := Downloading] == [Downloading];
    assert IssueOne(s1, 0, 0, 0, 1) == r by {
      assert [false][0 := true] == [true] && [[false]][0 := [true]] == [[true]];
      assert [0][0 := 1] == [1] && [[0]][0 := [1]] == [[1]];
      assert {} + {0} == {0};
      assert Launch(s1.peers[0], 0, 0) == r.peers[0];
    }
    assert IssueFrom(s1, 0, 0, 0, 1, 128) == IssueFrom(r, 0, 0, 1, 1, 128) == r;
  }

  lemma OnlyCandidate(s: State)
    requires s == Resting([1], [Peer(0, false, [true], map[])]) && Wf(s)
    ensures RarestFirst(s, 0) == [(1, 0)]
  {
    assert Wanted(s, 0, 0);
    assert Candidates(s, 0, 0) == [] && Candidates(s, 0, 1) == [(1, 0)];
    assert [(1, 0)][..0] == [];
    assert StableSort([(1, 0)], ByFirst) == Insert(StableSort([], ByFirst), (1, 0), ByFirst) == [(1, 0)];
  }

  lemma ScheduleOnly(s: State, r: State, a: (nat, nat), now: nat)
    requires Wf(s) && |s.peers| == 1 && RarestFirst(s, 0) == [a] && EffectiveCap(s, 0) == 128
    requires s.peers[0].pending < 128 && TryChunk(s, 0, a.1, now, 128) == r
    ensures ScheduleForPeer(s, 0, now) == r
  {
    assert ScheduleList(s, 0, [a], 0, now, 128) == ScheduleList(r, 0, [a], 1, now, 128) == r;
  }

  lemma PeerIsScheduled(s: State, r: State)
    requires s == Resting([1], [Peer(0, false, [true], map[])]) && r == Asking()
    ensures Wf(s) && Wf(r) && Tick(s, 1) == r
  {
    PeerIsFull(0, map[]);
    PeerIsAsked(s, r);
    OnlyCandidate(s);
    ScheduleOnly(s, r, (1, 0), 1);
    SchedulerWitness.TickOfOne(s, r, 1);
  }

  /** The download with nothing but its scheduler in motion. */
  function Download(sched: State, x: byte): Sys {
    Sys(sched, [Asm([x], {}, 1)], [[]], [Idle], [], [Free], [], 0, TaskDownloading, [], [0], [0])
  }

  lemma NetStep(cfg: Config, s: State, e: Event, s1: State, x: byte, r: Sys)
    requires SchedulerWitness.Leads(s, e, s1) && NetEvent(e) && !e.PieceArrived? && !e.Ticked?
    requires Leadsto(cfg, Download(s1, x), r)
    ensures Leadsto(cfg, Download(s, x), r)
  {
    Before(cfg, Download(s, x), Net(e), Download(s1, x), r);
  }

  lemma IdleTick(cfg: Config, s: State, s1: State, x: byte, r: Sys)
    requires OneByte(cfg) && Inv(s) && |s.chunks| == 1 && Tick(s, 1) == s1 && Leadsto(cfg, Download(s1, x), r)
    ensures Leadsto(cfg, Download(s, x), r)
  {
    var d := Download(s, x);
    TickKeeps(s, 1);
    assert CanSettle(cfg, d);
    assert Sum([1]) == 1 + Sum([]) by { assert [1][1..] == []; }
    assert DoSettle(cfg, d, 1, false) == Download(s1, x);
    Before(cfg, d, Settle(1, false), Download(s1, x), r);
  }

  lemma AtRest(cfg: Config, x: byte, s: Sys)
    requires OneByte(cfg) && s == Download(Resting([0], []), x)
    ensures Started(cfg, s, 0, [0], [false]) && PipeInv(cfg, s)
  {
    Booted(cfg);
    OneSlot(cfg);
    assert ConfigOk(cfg);
    var none: seq<Piece> := [];
    assert seq(1, _ => none) == [none] && seq(1, _ => Idle) == [Idle] && seq(1, _ => 0) == [0];
    assert RestoredBytes([false], [1]) == 0 by { assert [false][1..] == [] && [1][1..] == []; }
    StartHolds(cfg, s, 0, [0], [false]);
  }

  lemma RequestIsReached(cfg: Config, x: byte)
    requires OneByte(cfg)
    ensures Leadsto(cfg, Download(Resting([0], []), x), Download(Asking(), x)) && Ready(cfg, Download(Asking(), x))
  {
    var s0, s1 := Resting([0], []), Resting([0], [Peer(0, true, [false], map[])]);
    var s2, s3 := Resting([0], [Peer(0, false, [false], map[])]), Resting([1], [Peer(0, false, [true], map[])]);
    var r := Download(Asking(), x);
    Here(cfg, r);
    PeerIsScheduled(s3, Asking());
    PeerJoins(s0); PeerUnchokes(s1); PeerAdvertises(s2, s3);
    RestingInv(s3);
    IdleTick(cfg, s3, Asking(), x, r);
    NetStep(cfg, s2, Bitfield(0, [true], 1), s3, x, r);
    NetStep(cfg, s1, ChokeChange(0, false), s2, x, r);
    NetStep(cfg, s0, PeerAdded(0, 0), s1, x, r);
    AtRest(cfg, x, Download(s0, x));
    LeadstoKeeps(cfg, Download(s0, x), r);
  }

  lemma RestingInv(s: State)
    requires s == Resting([1], [Peer(0, false, [true], map[])])
    ensures Inv(s)
  {
    CountTrueZero([false]);
    assert Advertisers(s.peers[..0], 0) == 0;
    assert Advertisers(s.peers, 0) == 1;
  }

  // ---------------------------------------------------------------- the two runs

  /** A download started from scratch whose chunk failed: its peer sent a byte that does not hash to the
      seed's entry. */
  lemma ForgedPieceFails(cfg: Config, x: byte, b: byte) returns (s: Sys, r: Sys)
    requires OneByte(cfg) && cfg.hash([b]) != cfg.expected[0]
    ensures Started(cfg, s, 0, [0], [false]) && Leadsto(cfg, s, r) && PipeInv(cfg, r) && r.fails[0] > 0
  {
    s := Download(Resting([0], []), x);
    AtRest(cfg, x, s);
    RequestIsReached(cfg, x);
    var m := Judged(cfg, Download(Asking(), x), b);
    r := Closed(cfg, m, false);
    Then(cfg, Download(Asking(), x), m, r);
    Then(cfg, s, Download(Asking(), x), r);
  }

  /** The second answer arrives once the first has passed. */
  lemma Spoiled(cfg: Config, s: Sys, b: byte) returns (r: Sys)
    requires OneByte(cfg) && PipeInv(cfg, s) && Request(0, 0, 0) in s.sched.effects
    requires s.queues == [[]] && s.pcs == [Idle] && s.passes == [1]
    ensures Leadsto(cfg, s, r) && |r.sched.chunks| == |r.asm| == 1 && r.sched.chunks[0] == Complete
    ensures r.asm[0].mem == [b]
  {
    assert ChunkOk(cfg, s, 0);
    OneSlot(cfg);
    r := LateDuplicateReplaces(cfg, s, Byte(b), 0);
    assert Overwrite(s.asm[0].mem, 0, [b]) == [b];
  }

  /** A download whose chunk passed and is COMPLETE, yet holds another byte: the peer answered twice. */
  lemma ForgedDuplicateReplaces(cfg: Config, x: byte, g: byte, b: byte) returns (s: Sys, r: Sys)
    requires OneByte(cfg) && cfg.hash([g]) == cfg.expected[0] && cfg.hash([b]) != cfg.expected[0]
    ensures Started(cfg, s, 0, [0], [false]) && Leadsto(cfg, s, r)
    ensures |r.sched.chunks| == |r.asm| == 1 && r.sched.chunks[0] == Complete
    ensures cfg.hash(r.asm[0].mem) != cfg.expected[0]
  {
    s := Download(Resting([0], []), x);
    AtRest(cfg, x, s);
    RequestIsReached(cfg, x);
    var m := Judged(cfg, Download(Asking(), x), g);
    var m1 := Closed(cfg, m, true);
    r := Spoiled(cfg, m1, b);
    Then(cfg, m, m1, r);
    Then(cfg, Download(Asking(), x), m, r);
    Then(cfg, s, Download(Asking(), x), r);
  }
}
