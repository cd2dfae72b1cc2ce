/** Safety of the pipeline over every run: each chunk passes verification at most once, the books
    balance, and a download is "complete" only when every chunk is. */
module PipelineRuns {
  import opened Counting
  import opened Assembly
  import opened SchedulerModel
  import opened SchedulerInvariant
  import opened SchedulerRuns
  import opened SchedulerEvents
  import opened Pipeline
  import opened PipelineInvariant
  import opened PipelineSteps
  import opened PipelineSettle

  // ---------------------------------------------------------------- every step

  lemma StepKeeps(cfg: Config, s: Sys, step: Step)
    requires PipeInv(cfg, s) && CanDo(cfg, s, step)
    ensures PipeInv(cfg, Do(cfg, s, step))
  {
    match step
    case Net(e) =>
      NetEventKeeps(s.sched, e);
      NetKeeps(cfg, s, Apply(s.sched, e));
    case Deliver(peer, c, begin, data, now) => DeliverKeeps(cfg, s, Piece(c, begin, data, peer), now);
    case Take(w) => TakeKeeps(cfg, s, w);
    case CopyByte(w) => CopyKeeps(cfg, s, w);
    case Mark(w) => MarkKeeps(cfg, s, w);
    case CountDown(w) => CountDownKeeps(cfg, s, w);
    case Report(w) => ReportKeeps(cfg, s, w);
    case Fetch(v) => FetchKeeps(cfg, s, v);
    case ReadByte(v) => ReadKeeps(cfg, s, v);
    case Post(v) => PostKeeps(cfg, s, v);
    case Settle(now, trackerDead) => SettleKeeps(cfg, s, now, trackerDead);
  }

  lemma {:induction false} RunKeeps(cfg: Config, s: Sys, steps: seq<Step>, r: Sys)
    requires PipeInv(cfg, s) && Pipeline.Reaches(cfg, s, steps, r)
    ensures PipeInv(cfg, r)
    decreases |steps|
  {
    if |steps| > 0 {
      StepKeeps(cfg, s, steps[0]);
      RunKeeps(cfg, Do(cfg, s, steps[0]), steps[1..], r);
    }
  }

  // ---------------------------------------------------------------- the start of a download

  /** The scheduler as set up for a download that found the given chunks on disk. */
  ghost function BootScheduler(cfg: Config, localSpeed: nat, order: seq<nat>, bits: seq<bool>): (r: State)
    requires multiset(order) == multiset(Init(|cfg.lens|, localSpeed).active)
    ensures Wf(r)
  {
    var s1 := SetChunkSizes(Init(|cfg.lens|, localSpeed), cfg.lens);
    ShuffleInRange(s1, order);
    var s2 := s1.(active := order);
    var s3 := if exists c :: 0 <= c < |bits| && bits[c] then MarkAllComplete(s2, bits) else s2;
    s3.(canCancel := true, canDecline := true)
  }

  function RestoredBytes(bits: seq<bool>, lens: seq<nat>): nat
    requires |bits| == |lens|
  {
    if bits == [] then 0 else (if bits[0] then lens[0] else 0) + RestoredBytes(bits[1..], lens[1..])
  }

  ghost predicate Started(cfg: Config, s: Sys, localSpeed: nat, order: seq<nat>, bits: seq<bool>) {
    && ConfigOk(cfg) && |bits| == |cfg.lens|
    && (forall c :: 0 <= c < |bits| ==> (bits[c] <==> c in cfg.restored))
    && multiset(order) == multiset(Init(|cfg.lens|, localSpeed).active)
    && s.sched == BootScheduler(cfg, localSpeed, order, bits)
    && |s.asm| == |cfg.lens|
    && (forall c :: 0 <= c < |s.asm| ==>
          |s.asm[c].mem| == cfg.lens[c] && s.asm[c].marked == {} && s.asm[c].pending == SlotCount(cfg, c))
    && s.queues == seq(cfg.workers, _ => []) && s.pcs == seq(cfg.workers, _ => Idle)
    && s.verifyQ == [] && s.results == [] && s.delivered == []
    && (forall v :: 0 <= v < |s.verifiers| ==> s.verifiers[v] == Free)
    && s.bytesDone == RestoredBytes(bits, cfg.lens) && s.task == TaskDownloading
    && s.passes == seq(|cfg.lens|, _ => 0) && s.fails == seq(|cfg.lens|, _ => 0)
  }

  lemma {:induction false} RestoredBytesAre(chunks: seq<ChunkState>, bits: seq<bool>, lens: seq<nat>)
    requires |chunks| == |bits| == |lens|
    requires forall c :: 0 <= c < |bits| ==> (chunks[c] == Complete <==> bits[c])
    ensures DoneBytes(chunks, lens) == RestoredBytes(bits, lens)
  {
    if bits != [] { RestoredBytesAre(chunks[1..], bits[1..], lens[1..]); }
  }

  lemma SizesKeepCount(s: State, sizes: seq<nat>, order: seq<nat>)
    requires Inv(s) && s.subBlocks == [] && Accounted(s) && multiset(order) == multiset(s.active)
    ensures var s2 := SetChunkSizes(s, sizes).(active := order); Inv(s2) && Accounted(s2)
  {
    ChunkSizesKeeps(s, sizes);
    ShuffleKeeps(SetChunkSizes(s, sizes), order);
  }

  lemma BootSchedulerHolds(cfg: Config, localSpeed: nat, order: seq<nat>, bits: seq<bool>)
    requires |bits| == |cfg.lens| && multiset(order) == multiset(Init(|cfg.lens|, localSpeed).active)
    ensures var r := BootScheduler(cfg, localSpeed, order, bits);
            && Inv(r) && Accounted(r) && r.effects == [] && |r.chunks| == |cfg.lens|
            && r.subBlocks == SetChunkSizes(Init(|cfg.lens|, localSpeed), cfg.lens).subBlocks
            && (forall c :: 0 <= c < |cfg.lens| ==> (r.chunks[c] == Complete <==> bits[c]))
  {
    var s0 := Init(|cfg.lens|, localSpeed);
    InitHolds(|cfg.lens|, localSpeed);
    SizesKeepCount(s0, cfg.lens, order);
    if exists c :: 0 <= c < |bits| && bits[c] {
      RestoredHolds(SetChunkSizes(s0, cfg.lens).(active := order), bits);
    }
  }

  lemma RestoredHolds(s: State, bits: seq<bool>)
    requires Inv(s) && Accounted(s) && |bits| == |s.chunks|
    requires forall c :: 0 <= c < |s.chunks| ==> s.chunks[c] == Missing
    ensures var r := MarkAllComplete(s, bits);
            && Inv(r) && Accounted(r) && r.effects == s.effects
            && |r.chunks| == |s.chunks| && r.subBlocks == s.subBlocks
            && (forall c :: 0 <= c < |s.chunks| ==> (r.chunks[c] == Complete <==> bits[c]))
  {
    RestoreKeepsCount(s, bits);
    MarkFromKeeps(s, bits, 0);
    MarkAllKeeps(s, bits);
  }

  lemma StartHolds(cfg: Config, s: Sys, localSpeed: nat, order: seq<nat>, bits: seq<bool>)
    requires Started(cfg, s, localSpeed, order, bits)
    ensures PipeInv(cfg, s)
  {
    BootSchedulerHolds(cfg, localSpeed, order, bits);
    RestoredBytesAre(s.sched.chunks, bits, cfg.lens);
    forall c | 0 <= c < |cfg.lens|
      ensures ChunkOk(cfg, s, c) && s.sched.subBlocks[c] == SlotCount(cfg, c)
    {
      SlotCountPositive(cfg, c);
      CountIfNone(s.pcs, IsFirst(c));
      CountIfNone(s.pcs, IsLast(c));
      CountIfNone(s.verifiers, IsReading(c));
    }
    forall w | 0 <= w < cfg.workers ensures WorkerOk(cfg, s, w) { assert s.queues[w] == [] && s.pcs[w] == Idle; }
  }

  // ---------------------------------------------------------------- main results

  /** Over every interleaving of network, workers, verifiers and ticks: a chunk's result is settled
      at most once, so it passes at most once; the missing counter is the number of chunks that are
      not COMPLETE; the byte counter is the length of the COMPLETE chunks; and "complete" means every
      chunk is COMPLETE and the scheduler is DONE. */
  lemma EveryRunBalances(cfg: Config, s: Sys, localSpeed: nat, order: seq<nat>, bits: seq<bool>, steps: seq<Step>,
                         r: Sys)
    requires Started(cfg, s, localSpeed, order, bits) && Pipeline.Reaches(cfg, s, steps, r)
    ensures |r.passes| == |r.fails| == |r.sched.chunks| == |cfg.lens|
    ensures forall c :: 0 <= c < |cfg.lens| ==> r.passes[c] + r.fails[c] <= 1
    ensures r.sched.missing == Unfinished(r.sched.chunks) <= |cfg.lens|
    ensures r.bytesDone == DoneBytes(r.sched.chunks, cfg.lens) <= FileSize(cfg)
    ensures r.task == TaskComplete ==>
              && (forall c :: 0 <= c < |cfg.lens| ==> r.sched.chunks[c] == Complete)
              && r.sched.phase == Done
  {
    StartHolds(cfg, s, localSpeed, order, bits);
    RunKeeps(cfg, s, steps, r);
    AllBytesMeansAll(r.sched.chunks, cfg.lens);
    UnfinishedZero(r.sched.chunks);
    forall c | 0 <= c < |cfg.lens| ensures r.passes[c] + r.fails[c] <= 1 { assert ChunkOk(cfg, r, c); }
  }

  /** The countdown ends exactly once: never two reports, and exactly one when every slot is marked
      and every mark has been counted down. */
  lemma ReportedExactlyOnce(cfg: Config, s: Sys, c: nat)
    requires PipeInv(cfg, s) && c < |cfg.lens|
    ensures Tokens(s, c) + s.passes[c] + s.fails[c] <= 1
    ensures Tokens(s, c) + s.passes[c] + s.fails[c] == 1 <==>
            s.asm[c].marked == AllSlots(SlotCount(cfg, c)) && forall w :: 0 <= w < |s.pcs| ==> !IsFirst(c)(s.pcs[w])
  {
    assert ChunkOk(cfg, s, c);
    FullWhenCounted(s.asm[c].marked, SlotCount(cfg, c));
    if w :| 0 <= w < |s.pcs| && IsFirst(c)(s.pcs[w]) {
      CountIfSome(s.pcs, w, IsFirst(c));
    } else {
      CountIfNone(s.pcs, IsFirst(c));
    }
  }

  /** The main thread's tick is never refused. */
  lemma TickNeverBlocked(cfg: Config, s: Sys, now: nat, trackerDead: bool)
    requires PipeInv(cfg, s)
    ensures CanDo(cfg, s, Settle(now, trackerDead))
  {
    SettleKeeps(cfg, s, now, trackerDead);
  }

  // ---------------------------------------------------------------- a failed chunk stays open

  lemma {:induction false} FailsGrow(cfg: Config, d: Settlement, results: seq<VerifyResult>, k: nat, c: nat)
    requires SettlementOk(cfg, d) && ResultsInRange(cfg, results) && k <= |results| && c < |cfg.lens|
    ensures SettleFrom(cfg, d, results, k).fails[c] >= d.fails[c]
    decreases |results| - k
  {
    if k < |results| { FailsGrow(cfg, SettleOne(cfg, d, results[k]), results, k + 1, c); }
  }

  lemma StepNeverForgets(cfg: Config, s: Sys, step: Step, c: nat)
    requires PipeInv(cfg, s) && CanDo(cfg, s, step) && c < |cfg.lens|
    ensures c < |Do(cfg, s, step).fails| && Do(cfg, s, step).fails[c] >= s.fails[c]
  {
    if step.Settle? {
      TickKeeps(s.sched, step.now);
      FailsGrow(cfg, Settlement(Tick(s.sched, step.now), [], s.bytesDone, s.passes, s.fails), s.results, 0, c);
    }
  }

  /** Nothing re-initialises an assembler, so a chunk that failed verification is never COMPLETE
      again and the download never reaches "complete". */
  lemma {:induction false} FailedChunkNeverCompletes(cfg: Config, s: Sys, steps: seq<Step>, r: Sys, c: nat)
    requires PipeInv(cfg, s) && Pipeline.Reaches(cfg, s, steps, r) && c < |cfg.lens| && s.fails[c] > 0
    ensures c < |r.sched.chunks| && r.sched.chunks[c] != Complete && r.task != TaskComplete
    decreases |steps|
  {
    if |steps| == 0 {
      assert ChunkOk(cfg, s, c);
    } else {
      StepKeeps(cfg, s, steps[0]);
      StepNeverForgets(cfg, s, steps[0], c);
      FailedChunkNeverCompletes(cfg, Do(cfg, s, steps[0]), steps[1..], r, c);
    }
  }
}
