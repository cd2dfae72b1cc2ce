/** The main thread's tick: draining the verifiers' results keeps the pipeline's invariant. */
module PipelineSettle {
  import opened Counting
  import opened SchedulerModel
  import opened SchedulerInvariant
  import opened SchedulerRuns
  import opened SchedulerEvents
  import opened Pipeline
  import opened PipelineInvariant
  import opened PipelineSteps

  // ---------------------------------------------------------------- settling one result

  /** The system while results[k..] are still to be settled: a result that passed counts as if its
      message were back in the verify queue. */
  ghost function Midway(s: Sys, d: Settlement, k: nat): Sys
    requires k <= |s.results|
  {
    s.(sched := d.sched, results := s.results[k..], verifyQ := s.verifyQ + d.passed, fails := d.fails)
  }

  lemma PassMoves(cfg: Config, s: Sys, d: Settlement, k: nat)
    requires k < |s.results| && s.results[k].passed && SettlementOk(cfg, d) && s.results[k].chunk < |cfg.lens|
    requires PipeInv(cfg, Midway(s, d, k))
    ensures PipeInv(cfg, Midway(s, SettleOne(cfg, d, s.results[k]), k + 1))
  {
    var v, r := s.results[k], Midway(s, SettleOne(cfg, d, s.results[k]), k + 1);
    var m := Midway(s, d, k);
    assert s.results[k..] == [v] + s.results[k + 1..];
    assert r.verifyQ == m.verifyQ + [Completion(v.chunk, v.winner)];
    assert forall i :: 0 <= i < |r.results| ==> r.results[i] == m.results[i + 1];
    SameWorkersOk(cfg, m, r);
    forall c | 0 <= c < |cfg.lens| ensures ChunkOk(cfg, r, c) { PassChunkOk(cfg, s, d, k, c); }
  }

  lemma PassChunkOk(cfg: Config, s: Sys, d: Settlement, k: nat, c: nat)
    requires k < |s.results| && s.results[k].passed && SettlementOk(cfg, d) && s.results[k].chunk < |cfg.lens|
    requires PipeInv(cfg, Midway(s, d, k)) && c < |cfg.lens|
    ensures ChunkOk(cfg, Midway(s, SettleOne(cfg, d, s.results[k]), k + 1), c)
  {
    var v, m := s.results[k], Midway(s, d, k);
    assert ChunkOk(cfg, m, c);
    OneResultLess(s.results, k, c);
    CountIfPush(m.verifyQ, Completion(v.chunk, v.winner), IsQueued(c));
    assert Midway(s, SettleOne(cfg, d, v), k + 1).verifyQ == m.verifyQ + [Completion(v.chunk, v.winner)];
  }

  lemma FailChunkOk(cfg: Config, s: Sys, d: Settlement, k: nat, c: nat)
    requires k < |s.results| && !s.results[k].passed && SettlementOk(cfg, d) && s.results[k].chunk < |cfg.lens|
    requires PipeInv(cfg, Midway(s, d, k)) && c < |cfg.lens|
    requires d.sched.chunks[s.results[k].chunk] != Complete
    ensures ChunkOk(cfg, Midway(s, SettleOne(cfg, d, s.results[k]), k + 1), c)
  {
    var m, v := Midway(s, d, k), s.results[k];
    assert ChunkOk(cfg, m, c) && ChunkOk(cfg, m, v.chunk);
    OneResultLess(s.results, k, c);
  }

  lemma OneResultLess(results: seq<VerifyResult>, k: nat, c: nat)
    requires k < |results|
    ensures CountIf(results[k..], IsResult(c)) ==
            CountIf(results[k + 1..], IsResult(c)) + (if results[k].chunk == c then 1 else 0)
  {
    assert results[k..] == [results[k]] + results[k + 1..];
    CountIfConcat([results[k]], results[k + 1..], IsResult(c));
  }

  lemma ReportedNow(cfg: Config, s: Sys, d: Settlement, k: nat)
    requires k < |s.results| && SettlementOk(cfg, d) && s.results[k].chunk < |cfg.lens|
    requires PipeInv(cfg, Midway(s, d, k))
    ensures d.sched.chunks[s.results[k].chunk] != Complete
  {
    var m, c := Midway(s, d, k), s.results[k].chunk;
    assert ChunkOk(cfg, m, c);
    CountIfSome(m.results, 0, IsResult(c));
    NotCompleteWhileReported(cfg, m, c);
  }

  /** The scheduler with one more unfinished chunk cleared. */
  lemma FailSchedOk(cfg: Config, m: Sys, c: nat)
    requires SchedOk(cfg, m) && TaskLaw0(cfg, m) && c < |cfg.lens| && m.sched.chunks[c] != Complete
    ensures var r := m.(sched := VerifyFailed(m.sched, c)); SchedOk(cfg, r) && TaskLaw0(cfg, r)
  {
    VerifyFailedKeeps(m.sched, c);
    UnfinishedUpdate(m.sched.chunks, c, Missing);
    DoneBytesSame(m.sched.chunks, VerifyFailed(m.sched, c).chunks, cfg.lens);
  }

  ghost predicate TaskLaw0(cfg: Config, s: Sys) { |s.sched.chunks| == |cfg.lens| && TaskLaw(cfg, s) }

  lemma FailMoves(cfg: Config, s: Sys, d: Settlement, k: nat)
    requires k < |s.results| && !s.results[k].passed && SettlementOk(cfg, d) && s.results[k].chunk < |cfg.lens|
    requires PipeInv(cfg, Midway(s, d, k))
    ensures PipeInv(cfg, Midway(s, SettleOne(cfg, d, s.results[k]), k + 1))
  {
    var m, r := Midway(s, d, k), Midway(s, SettleOne(cfg, d, s.results[k]), k + 1);
    ReportedNow(cfg, s, d, k);
    FailSchedOk(cfg, m, s.results[k].chunk);
    assert forall i :: 0 <= i < |r.results| ==> r.results[i] == m.results[i + 1];
    SameWorkersOk(cfg, m, r);
    forall c | 0 <= c < |cfg.lens| ensures ChunkOk(cfg, r, c) { FailChunkOk(cfg, s, d, k, c); }
  }

  // ---------------------------------------------------------------- the loop

  function PassedBytes(cfg: Config, passed: seq<Completion>): nat
    requires forall i :: 0 <= i < |passed| ==> passed[i].chunk < |cfg.lens|
  {
    if passed == [] then 0 else cfg.lens[passed[|passed| - 1].chunk] + PassedBytes(cfg, passed[..|passed| - 1])
  }

  /** The settlement's own books against the state before it. */
  ghost predicate Books(cfg: Config, s: Sys, d: Settlement) {
    && SettlementOk(cfg, d) && |s.passes| == |cfg.lens|
    && d.bytes == s.bytesDone + PassedBytes(cfg, d.passed)
    && (forall c :: 0 <= c < |cfg.lens| ==> d.passes[c] == s.passes[c] + CountIf(d.passed, IsQueued(c)))
  }

  lemma BooksStep(cfg: Config, s: Sys, d: Settlement, v: VerifyResult)
    requires Books(cfg, s, d) && v.chunk < |cfg.lens|
    ensures Books(cfg, s, SettleOne(cfg, d, v))
  {
    var d' := SettleOne(cfg, d, v);
    if v.passed {
      var m := Completion(v.chunk, v.winner);
      assert d'.passed[..|d'.passed| - 1] == d.passed;
      forall c | 0 <= c < |cfg.lens| ensures d'.passes[c] == s.passes[c] + CountIf(d'.passed, IsQueued(c)) {
        CountIfPush(d.passed, m, IsQueued(c));
      }
    }
  }

  lemma {:induction false} SettleFromKeeps(cfg: Config, s: Sys, d: Settlement, k: nat) returns (d': Settlement)
    requires k <= |s.results| && ResultsInRange(cfg, s.results) && Books(cfg, s, d)
    requires PipeInv(cfg, Midway(s, d, k))
    ensures d' == SettleFrom(cfg, d, s.results, k) && Books(cfg, s, d')
    ensures PipeInv(cfg, Midway(s, d', |s.results|))
    decreases |s.results| - k
  {
    d' := d;
    if k < |s.results| {
      var d1 := SettleOne(cfg, d, s.results[k]);
      BooksStep(cfg, s, d, s.results[k]);
      if s.results[k].passed { PassMoves(cfg, s, d, k); } else { FailMoves(cfg, s, d, k); }
      d' := SettleFromKeeps(cfg, s, d1, k + 1);
    }
  }

  // ---------------------------------------------------------------- completing the chunks that passed

  lemma {:induction false} TwoCounted<T>(xs: seq<T>, i: nat, j: nat, p: T -> bool)
    requires i < j < |xs| && p(xs[i]) && p(xs[j])
    ensures CountIf(xs, p) >= 2
  {
    if i == 0 {
      CountIfSome(xs[1..], j - 1, p);
    } else {
      TwoCounted(xs[1..], i - 1, j - 1, p);
    }
  }

  lemma PassedAreFresh(cfg: Config, m: Sys, q: seq<Completion>, passed: seq<Completion>)
    requires PipeInv(cfg, m) && m.verifyQ == q + passed
    ensures FreshCompletions(m.sched.chunks, passed, 0)
  {
    forall i | 0 <= i < |passed|
      ensures passed[i].chunk < |m.sched.chunks| && m.sched.chunks[passed[i].chunk] != Complete
      ensures forall j :: i < j < |passed| ==> passed[i].chunk != passed[j].chunk
    {
      var c := passed[i].chunk;
      assert m.verifyQ[|q| + i] == passed[i];
      assert ChunkOk(cfg, m, c);
      CountIfSome(m.verifyQ, |q| + i, IsQueued(c));
      NotCompleteWhileReported(cfg, m, c);
      forall j | i < j < |passed| ensures passed[i].chunk != passed[j].chunk {
        if passed[j].chunk == c {
          assert m.verifyQ[|q| + j] == passed[j];
          TwoCounted(m.verifyQ, |q| + i, |q| + j, IsQueued(c));
        }
      }
    }
  }

  lemma {:induction false} NamedIff(msgs: seq<Completion>, k: nat, c: nat)
    requires k <= |msgs|
    ensures c in Named(msgs, k) <==> CountIf(msgs[k..], IsQueued(c)) > 0
    decreases |msgs| - k
  {
    if k < |msgs| {
      assert msgs[k..] == [msgs[k]] + msgs[k + 1..];
      CountIfConcat([msgs[k]], msgs[k + 1..], IsQueued(c));
      NamedIff(msgs, k + 1, c);
    }
  }

  lemma {:induction false} DoneBytesUpdate(chunks: seq<ChunkState>, lens: seq<nat>, c: nat)
    requires |chunks| == |lens| && c < |chunks| && chunks[c] != Complete
    ensures DoneBytes(chunks[c := Complete], lens) == DoneBytes(chunks, lens) + lens[c]
  {
    if c == 0 {
      assert chunks[c := Complete][1..] == chunks[1..];
    } else {
      assert chunks[c := Complete][1..] == chunks[1..][c - 1 := Complete];
      DoneBytesUpdate(chunks[1..], lens[1..], c - 1);
    }
  }

  /** The chunk states after the messages complete their chunks, last message last. */
  function Completed(chunks: seq<ChunkState>, msgs: seq<Completion>): (r: seq<ChunkState>)
    requires forall i :: 0 <= i < |msgs| ==> msgs[i].chunk < |chunks|
    ensures |r| == |chunks|
  {
    if msgs == [] then chunks
    else Completed(chunks, msgs[..|msgs| - 1])[msgs[|msgs| - 1].chunk := Complete]
  }

  lemma {:induction false} CompletedBytes(cfg: Config, chunks: seq<ChunkState>, msgs: seq<Completion>)
    requires |chunks| == |cfg.lens| && FreshCompletions(chunks, msgs, 0)
    ensures DoneBytes(Completed(chunks, msgs), cfg.lens) == DoneBytes(chunks, cfg.lens) + PassedBytes(cfg, msgs)
    ensures forall c :: 0 <= c < |chunks| ==>
              Completed(chunks, msgs)[c] == if CountIf(msgs, IsQueued(c)) > 0 then Complete else chunks[c]
  {
    if msgs != [] {
      var init, last := msgs[..|msgs| - 1], msgs[|msgs| - 1];
      CompletedBytes(cfg, chunks, init);
      assert msgs == init + [last];
      forall c | 0 <= c < |chunks|
        ensures CountIf(msgs, IsQueued(c)) == CountIf(init, IsQueued(c)) + (if last.chunk == c then 1 else 0)
      {
        CountIfPush(init, last, IsQueued(c));
      }
      CountIfNone(init, IsQueued(last.chunk));
      DoneBytesUpdate(Completed(chunks, init), cfg.lens, last.chunk);
    }
  }

  lemma PassedChunks(cfg: Config, sched: State, passed: seq<Completion>)
    requires Inv(sched) && |sched.chunks| == |cfg.lens| && FreshCompletions(sched.chunks, passed, 0)
    ensures var r := AfterPassed(sched, passed);
            && Inv(r) && SendsNoRequest(sched, r) && r.subBlocks == sched.subBlocks
            && r.chunks == Completed(sched.chunks, passed)
  {
    CompletedBytes(cfg, sched.chunks, passed);
    if passed != [] {
      ProcessCompletionsKeeps(sched, passed);
      var r := ProcessCompletions(sched, passed);
      assert passed[0..] == passed;
      forall c | 0 <= c < |sched.chunks| ensures r.chunks[c] == Completed(sched.chunks, passed)[c] {
        NamedIff(passed, 0, c);
      }
    }
  }

  lemma AskedForSame(a: State, b: State, c: nat)
    requires SendsNoRequest(a, b)
    ensures AskedFor(a.effects, c) <==> AskedFor(b.effects, c)
  {
    if AskedFor(a.effects, c) { AskedForStays(a.effects, b.effects, c); }
    if AskedFor(b.effects, c) {
      var i :| 0 <= i < |b.effects| && b.effects[i].Request? && b.effects[i].chunk == c;
      assert a.effects[i] == b.effects[i];
    }
  }

  /** The system once the chunks that passed are COMPLETE. */
  ghost function Flushed(m: Sys, q: seq<Completion>, sched: State, bytes: nat, passes: seq<nat>): Sys {
    m.(verifyQ := q, sched := sched, bytesDone := bytes, passes := passes)
  }

  lemma FlushedChunkOk(cfg: Config, m: Sys, q: seq<Completion>, passed: seq<Completion>, sched: State,
                       bytes: nat, passes: seq<nat>, c: nat)
    requires PipeInv(cfg, m) && m.verifyQ == q + passed && c < |cfg.lens| == |passes|
    requires |sched.chunks| == |m.sched.chunks| && SendsNoRequest(m.sched, sched)
    requires sched.chunks[c] == if CountIf(passed, IsQueued(c)) > 0 then Complete else m.sched.chunks[c]
    requires passes[c] == m.passes[c] + CountIf(passed, IsQueued(c))
    ensures ChunkOk(cfg, Flushed(m, q, sched, bytes, passes), c)
  {
    assert ChunkOk(cfg, m, c);
    CountIfConcat(q, passed, IsQueued(c));
    AskedForSame(m.sched, sched, c);
    if CountIf(passed, IsQueued(c)) > 0 { NotCompleteWhileReported(cfg, m, c); }
  }

  lemma FlushedSchedOk(cfg: Config, m: Sys, passed: seq<Completion>)
    requires PipeInv(cfg, m) && FreshCompletions(m.sched.chunks, passed, 0)
    ensures SchedOk(cfg, m.(sched := AfterPassed(m.sched, passed)))
  {
    var r := AfterPassed(m.sched, passed);
    PassedChunks(cfg, m.sched, passed);
    if passed != [] { CompletionsKeepCount(m.sched, passed); }
    forall i | 0 <= i < |r.effects| ensures EffectOk(cfg, r.effects[i]) {
      if i < |m.sched.effects| { assert r.effects[i] == m.sched.effects[i]; }
    }
  }

  lemma FlushKeeps(cfg: Config, m: Sys, q: seq<Completion>, passed: seq<Completion>, bytes: nat, passes: seq<nat>)
    requires PipeInv(cfg, m) && m.verifyQ == q + passed && FreshCompletions(m.sched.chunks, passed, 0)
    requires |passes| == |cfg.lens| && bytes == m.bytesDone + PassedBytes(cfg, passed)
    requires forall c :: 0 <= c < |cfg.lens| ==> passes[c] == m.passes[c] + CountIf(passed, IsQueued(c))
    ensures PipeInv(cfg, Flushed(m, q, AfterPassed(m.sched, passed), bytes, passes))
  {
    var sched := AfterPassed(m.sched, passed);
    var r := Flushed(m, q, sched, bytes, passes);
    PassedChunks(cfg, m.sched, passed);
    CompletedBytes(cfg, m.sched.chunks, passed);
    FlushedSchedOk(cfg, m, passed);
    SameWorkersOk(cfg, m, r);
    forall p | p in r.delivered ensures PieceOk(cfg, p) && AskedFor(sched.effects, p.chunk) {
      AskedForSame(m.sched, sched, p.chunk);
    }
    assert forall i :: 0 <= i < |q| ==> q[i] == m.verifyQ[i];
    forall c | 0 <= c < |cfg.lens| ensures ChunkOk(cfg, r, c) {
      FlushedChunkOk(cfg, m, q, passed, sched, bytes, passes, c);
    }
  }

  // ---------------------------------------------------------------- "complete"

  lemma {:induction false} AllBytesMeansAll(chunks: seq<ChunkState>, lens: seq<nat>)
    requires |chunks| == |lens| && forall c :: 0 <= c < |lens| ==> lens[c] > 0
    ensures DoneBytes(chunks, lens) <= Sum(lens)
    ensures DoneBytes(chunks, lens) == Sum(lens) <==> forall c :: 0 <= c < |chunks| ==> chunks[c] == Complete
  {
    if chunks != [] {
      AllBytesMeansAll(chunks[1..], lens[1..]);
      assert forall c :: 0 < c < |chunks| ==> chunks[c] == chunks[1..][c - 1];
    }
  }

  lemma TaskMoves(cfg: Config, s: Sys, trackerDead: bool)
    requires PipeInv(cfg, s)
    ensures PipeInv(cfg, s.(task := TaskAfter(cfg, s.task, s.bytesDone, trackerDead)))
  {
    var r := s.(task := TaskAfter(cfg, s.task, s.bytesDone, trackerDead));
    AllBytesMeansAll(s.sched.chunks, cfg.lens);
    SameWorkersOk(cfg, s, r);
    forall c | 0 <= c < |cfg.lens| ensures ChunkOk(cfg, r, c) { assert ChunkOk(cfg, s, c); }
  }

  lemma ScheduledIsNetFrame(s: State, r: State)
    requires Scheduled(s, r)
    ensures NetFrame(s, r)
  {
  }

  lemma StartOfSettlement(cfg: Config, s: Sys)
    requires PipeInv(cfg, s)
    ensures var d := Settlement(s.sched, [], s.bytesDone, s.passes, s.fails);
            Midway(s, d, 0) == s && Books(cfg, s, d)
  {
    assert s.results[0..] == s.results && s.verifyQ + [] == s.verifyQ;
  }

  lemma SettleKeeps(cfg: Config, s: Sys, now: nat, trackerDead: bool)
    requires PipeInv(cfg, s)
    ensures CanSettle(cfg, s) && PipeInv(cfg, DoSettle(cfg, s, now, trackerDead))
  {
    TickKeeps(s.sched, now);
    ScheduledIsNetFrame(s.sched, Tick(s.sched, now));
    var s1 := s.(sched := Tick(s.sched, now));
    NetKeeps(cfg, s, s1.sched);
    var d := Settlement(s1.sched, [], s1.bytesDone, s1.passes, s1.fails);
    StartOfSettlement(cfg, s1);
    var d' := SettleFromKeeps(cfg, s1, d, 0);
    var m := Midway(s1, d', |s1.results|);
    PassedAreFresh(cfg, m, s1.verifyQ, d'.passed);
    FlushKeeps(cfg, m, s1.verifyQ, d'.passed, d'.bytes, d'.passes);
    TaskMoves(cfg, Flushed(m, s1.verifyQ, AfterPassed(d'.sched, d'.passed), d'.bytes, d'.passes), trackerDead);
  }
}
