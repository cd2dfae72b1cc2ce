/** The main thread's view of one download: its scheduler, byte counter and state. */
module DownloadTasks {
  import opened SchedulerModel
  import opened SchedulerInvariant
  import opened Pipeline
  import opened Scheduling

  /** What the settlement does to the scheduler, the byte counter and the passed chunks does not depend
      on the histories the pipeline machine keeps beside them. */
  lemma {:induction false} HistoriesDoNotMatter(cfg: Config, d: Settlement, e: Settlement, results: seq<VerifyResult>,
                                                k: nat)
    requires SettlementOk(cfg, d) && SettlementOk(cfg, e) && ResultsInRange(cfg, results) && k <= |results|
    requires d.sched == e.sched && d.passed == e.passed && d.bytes == e.bytes
    ensures var (x, y) := (SettleFrom(cfg, d, results, k), SettleFrom(cfg, e, results, k));
            x.sched == y.sched && x.passed == y.passed && x.bytes == y.bytes
    decreases |results| - k
  {
    if k < |results| {
      HistoriesDoNotMatter(cfg, SettleOne(cfg, d, results[k]), SettleOne(cfg, e, results[k]), results, k + 1);
    }
  }

  /** The settlement a download makes of its drained results. */
  ghost function Settled(cfg: Config, sched: State, bytes: nat, results: seq<VerifyResult>, now: nat): (d: Settlement)
    requires Inv(sched) && |sched.chunks| == |cfg.lens| && ResultsInRange(cfg, results)
    ensures SettlementOk(cfg, d)
  {
    TickKeeps(sched, now);
    var zeros := seq(|cfg.lens|, _ => 0);
    SettleFrom(cfg, Settlement(Tick(sched, now), [], bytes, zeros, zeros), results, 0)
  }

  /** The tick of class `DownloadTask` is the settle step of the pipeline machine. */
  lemma SettledIsSettleStep(cfg: Config, s: Sys, now: nat, trackerDead: bool)
    requires CanSettle(cfg, s)
    ensures var (d, r) := (Settled(cfg, s.sched, s.bytesDone, s.results, now), DoSettle(cfg, s, now, trackerDead));
            && r.sched == AfterPassed(d.sched, d.passed) && r.bytesDone == d.bytes
            && r.task == TaskAfter(cfg, s.task, d.bytes, trackerDead)
  {
    TickKeeps(s.sched, now);
    var zeros := seq(|cfg.lens|, _ => 0);
    HistoriesDoNotMatter(cfg, Settlement(Tick(s.sched, now), [], s.bytesDone, zeros, zeros),
                         Settlement(Tick(s.sched, now), [], s.bytesDone, s.passes, s.fails), s.results, 0);
  }

  class DownloadTask {
    const cfg: Config
    const scheduler: Scheduler
    var bytesDone: nat
    var state: TaskState

    constructor (cfg: Config, scheduler: Scheduler, initialBytes: nat)
      ensures this.cfg == cfg && this.scheduler == scheduler && bytesDone == initialBytes && state == TaskDownloading
    {
      this.cfg := cfg;
      this.scheduler := scheduler;
      bytesDone := initialBytes;
      state := TaskDownloading;
    }

    /** Counts a chunk that passed, or hands a failure back to the scheduler. */
    method SettleResult(r: VerifyResult, passed0: seq<Completion>, ghost d: Settlement)
      returns (passed: seq<Completion>)
      requires SettlementOk(cfg, d) && r.chunk < |cfg.lens| && Inv(d.sched)
      requires d.sched == scheduler.View() && d.bytes == bytesDone && d.passed == passed0
      modifies `bytesDone, scheduler
      ensures var d' := SettleOne(cfg, d, r);
              scheduler.View() == d'.sched && Inv(d'.sched) && bytesDone == d'.bytes && passed == d'.passed
    {
      passed := passed0;
      if r.passed {
        passed := passed + [Completion(r.chunk, r.winner)];
        bytesDone := bytesDone + cfg.lens[r.chunk];
      } else {
        scheduler.OnVerifyFailed(r.chunk);
      }
    }

    method SettleResults(results: seq<VerifyResult>, ghost d0: Settlement)
      returns (passed: seq<Completion>, ghost d: Settlement)
      requires SettlementOk(cfg, d0) && ResultsInRange(cfg, results) && Inv(d0.sched)
      requires d0.sched == scheduler.View() && d0.bytes == bytesDone && d0.passed == []
      modifies `bytesDone, scheduler
      ensures d == SettleFrom(cfg, d0, results, 0) && passed == d.passed
      ensures scheduler.View() == d.sched && Inv(d.sched) && bytesDone == d.bytes
    {
      passed := [];
      d := d0;
      ghost var goal := SettleFrom(cfg, d0, results, 0);
      for k := 0 to |results|
        invariant SettlementOk(cfg, d) && Inv(d.sched) && SettleFrom(cfg, d, results, k) == goal
        invariant passed == d.passed && scheduler.View() == d.sched && bytesDone == d.bytes
      {
        passed := SettleResult(results[k], passed, d);
        d := SettleOne(cfg, d, results[k]);
      }
    }

    method OnTick(results: seq<VerifyResult>, now: nat, trackerDead: bool)
      requires Inv(scheduler.View()) && |scheduler.chunkStates| == |cfg.lens| && ResultsInRange(cfg, results)
      modifies this, scheduler
      ensures Inv(scheduler.View())
      ensures var d := Settled(cfg, old(scheduler.View()), old(bytesDone), results, now);
              && scheduler.View() == AfterPassed(d.sched, d.passed)
              && bytesDone == d.bytes
              && state == TaskAfter(cfg, old(state), d.bytes, trackerDead)
    {
      ghost var zeros := seq(|cfg.lens|, _ => 0);
      TickKeeps(scheduler.View(), now);
      scheduler.OnTick(now);
      ghost var start := Settlement(scheduler.View(), [], bytesDone, zeros, zeros);
      ghost var d;
      var passed;
      passed, d := SettleResults(results, start);
      if passed != [] {
        scheduler.OnCompletions(passed);
      }
      UpdateState(trackerDead);
    }

    method UpdateState(trackerDead: bool)
      modifies `state
      ensures state == TaskAfter(cfg, old(state), bytesDone, trackerDead)
    {
      if bytesDone >= FileSize(cfg) && state == TaskDownloading {
        state := TaskComplete;
      }
      if trackerDead && state == TaskDownloading {
        state := TaskWaiting;
      }
    }
  }
}
