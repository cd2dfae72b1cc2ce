/** Whatever the workers and verifiers have to do, they can finish it: from every state of a download
    some run of their steps alone leads to one in which all of them are idle. */
module PipelineDrain {
  import opened Assembly
  import opened SchedulerModel
  import opened SchedulerInvariant
  import opened SchedulerRuns
  import opened SchedulerEvents
  import opened Pipeline
  import opened PipelineInvariant
  import opened PipelineRuns
  import opened PipelineHonest
  import opened ServedPieces
  import opened PipelineArrival

  /** A published file, its chunks and where they are. */
  datatype World = World(cfg: Config, content: seq<seq<byte>>, file: seq<byte>, offsets: seq<nat>)

  ghost predicate WorldOk(w: World) {
    && ConfigOk(w.cfg) && Published(w.cfg, w.content) && |w.offsets| == |w.cfg.lens|
    && (forall c :: 0 <= c < |w.offsets| ==> Placed(w, c))
  }

  ghost predicate Placed(w: World, c: nat)
    requires c < |w.offsets| && c < |w.cfg.lens| && c < |w.content|
  {
    && w.offsets[c] + w.cfg.lens[c] <= |w.file|
    && w.content[c] == w.file[w.offsets[c]..w.offsets[c] + w.cfg.lens[c]]
  }

  // ---------------------------------------------------------------- what holds along served runs

  ghost predicate Fine(w: World, s: Sys) {
    && WorldOk(w) && GoodInv(w.cfg, w.content, s) && ServedLog(w.file, w.offsets, s.delivered)
    && DoneArrived(s.sched.done, s.delivered) && NothingDropped(w.cfg, s) && |s.verifiers| > 0
    && (forall c :: 0 <= c < |w.cfg.lens| && c in w.cfg.restored ==> s.sched.chunks[c] == Complete)
  }

  ghost predicate Served(w: World, step: Step) { ServedStep(w.file, w.offsets, step) }

  lemma ServedIsHonest(w: World, s: Sys, step: Step)
    requires Fine(w, s) && CanDo(w.cfg, s, step) && Served(w, step)
    ensures HonestStep(w.cfg, w.content, step)
  {
    if step.Deliver? {
      var e := Request(step.peer, step.chunk, step.begin);
      assert EffectOk(w.cfg, e);
      assert Placed(w, step.chunk);
      ServedPieceIsHonest(w.cfg, w.content, w.file, w.offsets[step.chunk], step.chunk, step.begin, step.peer);
    }
  }

  lemma LogStaysServed(w: World, s: Sys, step: Step)
    requires ServedLog(w.file, w.offsets, s.delivered) && CanDo(w.cfg, s, step) && Served(w, step)
    ensures ServedLog(w.file, w.offsets, Do(w.cfg, s, step).delivered)
    ensures |Do(w.cfg, s, step).verifiers| == |s.verifiers|
  {
  }

  lemma {:induction false} PassesStay(cfg: Config, d: Settlement, results: seq<VerifyResult>, k: nat, c: nat)
    requires SettlementOk(cfg, d) && ResultsInRange(cfg, results) && k <= |results| && c < |cfg.lens|
    requires forall i :: 0 <= i < |results| ==> results[i].passed
    ensures SettleFrom(cfg, d, results, k).sched == d.sched
    ensures d.passes[c] > 0 || (exists i :: k <= i < |results| && results[i].chunk == c) ==>
              SettleFrom(cfg, d, results, k).passes[c] > 0
    decreases |results| - k
  {
    if k < |results| { PassesStay(cfg, SettleOne(cfg, d, results[k]), results, k + 1, c); }
  }

  /** After the tick every chunk is COMPLETE that was, or whose good verdict was waiting. */
  lemma SettlesGood(cfg: Config, s: Sys, now: nat, trackerDead: bool, c: nat)
    requires PipeInv(cfg, s) && CanSettle(cfg, s) && c < |cfg.lens|
    requires PipeInv(cfg, DoSettle(cfg, s, now, trackerDead))
    requires forall i :: 0 <= i < |s.results| ==> s.results[i].passed
    requires s.sched.chunks[c] == Complete || exists i :: 0 <= i < |s.results| && s.results[i].chunk == c
    ensures DoSettle(cfg, s, now, trackerDead).sched.chunks[c] == Complete
  {
    var r := DoSettle(cfg, s, now, trackerDead);
    TickKeeps(s.sched, now);
    var start := Settlement(Tick(s.sched, now), [], s.bytesDone, s.passes, s.fails);
    PassesStay(cfg, start, s.results, 0, c);
    var d := SettleFrom(cfg, start, s.results, 0);
    if s.sched.chunks[c] == Complete {
      if d.passed != [] { ProcessCompletionsKeeps(d.sched, d.passed); }
    } else {
      assert ChunkOk(cfg, r, c);
    }
  }

  /** What is COMPLETE stays so while nothing fails. */
  lemma StaysComplete(cfg: Config, content: seq<seq<byte>>, s: Sys, step: Step, c: nat)
    requires GoodInv(cfg, content, s) && CanDo(cfg, s, step) && PipeInv(cfg, Do(cfg, s, step))
    requires c < |cfg.lens| && s.sched.chunks[c] == Complete
    ensures Do(cfg, s, step).sched.chunks[c] == Complete
  {
    if step.Net? {
      NetEventKeeps(s.sched, step.event);
    } else if step.Deliver? {
      OnPieceKeeps(s.sched, step.peer, step.chunk, step.begin, step.now);
    } else if step.Settle? {
      SettlesGood(cfg, s, step.now, step.trackerDead, c);
    }
  }

  lemma StepFine(w: World, s: Sys, step: Step)
    requires Fine(w, s) && CanDo(w.cfg, s, step) && Served(w, step)
    ensures Fine(w, Do(w.cfg, s, step))
  {
    ServedIsHonest(w, s, step);
    StepGood(w.cfg, w.content, s, step);
    LogStaysServed(w, s, step);
    StepDone(w.cfg, s, step);
    StepDropsNothing(w.cfg, s, step);
    forall c | 0 <= c < |w.cfg.lens| && c in w.cfg.restored ensures Do(w.cfg, s, step).sched.chunks[c] == Complete {
      StaysComplete(w.cfg, w.content, s, step, c);
    }
  }

  lemma StartFine(w: World, s: Sys, localSpeed: nat, order: seq<nat>, bits: seq<bool>)
    requires WorldOk(w) && Started(w.cfg, s, localSpeed, order, bits) && |s.verifiers| > 0
    requires forall c :: 0 <= c < |w.cfg.lens| && bits[c] ==> s.asm[c].mem == w.content[c]
    ensures Fine(w, s)
  {
    StartGood(w.cfg, w.content, s, localSpeed, order, bits);
    NothingDoneYet(w.cfg, localSpeed, order, bits);
    BootSchedulerHolds(w.cfg, localSpeed, order, bits);
  }

  lemma NothingDoneYet(cfg: Config, localSpeed: nat, order: seq<nat>, bits: seq<bool>)
    requires ConfigOk(cfg) && |bits| == |cfg.lens| && multiset(order) == multiset(Init(|cfg.lens|, localSpeed).active)
    ensures DoneArrived(BootScheduler(cfg, localSpeed, order, bits).done, [])
  {
    var s := SetChunkSizes(Init(|cfg.lens|, localSpeed), cfg.lens);
    ShuffleInRange(s, order);
    MarkingDone(s.(active := order), bits, 0);
  }

  lemma {:induction false} MarkingDone(s: State, bits: seq<bool>, k: nat)
    requires Wf(s)
    ensures MarkFrom(s, bits, k).done == s.done
    decreases |bits| - k
  {
    if k < |bits| && k < |s.chunks| {
      MarkingDone(if bits[k] then MarkOne(s, k) else s, bits, k + 1);
    }
  }

  // ---------------------------------------------------------------- runs

  ghost predicate Runs(w: World, s: Sys, steps: seq<Step>, r: Sys) {
    Pipeline.Reaches(w.cfg, s, steps, r) && forall i :: 0 <= i < |steps| ==> Served(w, steps[i])
  }

  /** Some run in which every piece is read out of the file leads from s to r. */
  ghost predicate Leads(w: World, s: Sys, r: Sys) { exists steps :: Runs(w, s, steps, r) }

  lemma Stay(w: World, s: Sys)
    ensures Leads(w, s, s)
  {
    assert Runs(w, s, [], s);
  }

  lemma Onward(w: World, s: Sys, step: Step) returns (r: Sys)
    requires CanDo(w.cfg, s, step) && Served(w, step)
    ensures r == Do(w.cfg, s, step) && Leads(w, s, r)
  {
    r := Do(w.cfg, s, step);
    assert Pipeline.Reaches(w.cfg, r, [step][1..], r);
    assert Runs(w, s, [step], r);
  }

  lemma Split<T>(a: seq<T>, b: seq<T>)
    requires |a| > 0
    ensures (a + b)[0] == a[0] && (a + b)[1..] == a[1..] + b
  {
  }

  lemma {:induction false} ReachesOn(cfg: Config, s: Sys, steps: seq<Step>, m: Sys, more: seq<Step>, r: Sys)
    requires Pipeline.Reaches(cfg, s, steps, m) && Pipeline.Reaches(cfg, m, more, r)
    ensures Pipeline.Reaches(cfg, s, steps + more, r)
    decreases |steps|
  {
    if |steps| == 0 {
      assert steps + more == more;
    } else {
      ReachesOn(cfg, Do(cfg, s, steps[0]), steps[1..], m, more, r);
      Split(steps, more);
    }
  }

  lemma Then(w: World, s: Sys, m: Sys, r: Sys)
    requires Leads(w, s, m) && Leads(w, m, r)
    ensures Leads(w, s, r)
  {
    var steps :| Runs(w, s, steps, m);
    var more :| Runs(w, m, more, r);
    RunsOn(w, s, steps, m, more, r);
  }

  lemma RunsOn(w: World, s: Sys, steps: seq<Step>, m: Sys, more: seq<Step>, r: Sys)
    requires Runs(w, s, steps, m) && Runs(w, m, more, r)
    ensures Runs(w, s, steps + more, r)
  {
    ReachesOn(w.cfg, s, steps, m, more, r);
    ServedOn(w, steps, more);
  }

  lemma ServedOn(w: World, a: seq<Step>, b: seq<Step>)
    requires forall i :: 0 <= i < |a| ==> Served(w, a[i])
    requires forall i :: 0 <= i < |b| ==> Served(w, b[i])
    ensures forall i :: 0 <= i < |a + b| ==> Served(w, (a + b)[i])
  {
    forall i | 0 <= i < |a + b| ensures Served(w, (a + b)[i]) {
      assert (a + b)[i] == if i < |a| then a[i] else b[i - |a|];
    }
  }

  lemma FirstStep(w: World, s: Sys, steps: seq<Step>, r: Sys)
    requires |steps| > 0 && Runs(w, s, steps, r)
    ensures CanDo(w.cfg, s, steps[0]) && Served(w, steps[0]) && Runs(w, Do(w.cfg, s, steps[0]), steps[1..], r)
  {
  }

  lemma {:induction false} RunFine(w: World, s: Sys, steps: seq<Step>, r: Sys)
    requires Fine(w, s) && Runs(w, s, steps, r)
    ensures Fine(w, r)
    decreases |steps|
  {
    if |steps| > 0 {
      FirstStep(w, s, steps, r);
      StepFine(w, s, steps[0]);
      RunFine(w, Do(w.cfg, s, steps[0]), steps[1..], r);
    }
  }

  lemma LeadsFine(w: World, s: Sys, r: Sys)
    requires Fine(w, s) && Leads(w, s, r)
    ensures Fine(w, r)
  {
    var steps :| Runs(w, s, steps, r);
    RunFine(w, s, steps, r);
  }

  // ---------------------------------------------------------------- a worker finishes its piece

  /** Only what workers write has changed. */
  ghost predicate Worked(s: Sys, r: Sys) {
    r == s.(asm := r.asm, queues := r.queues, pcs := r.pcs, verifyQ := r.verifyQ)
  }

  /** The worker's pieces are of this file, and the one in its hands fits. */
  ghost predicate Able(cfg: Config, pc: Worker, queue: seq<Piece>) {
    && (pc != Idle ==> pc.piece.chunk < |cfg.lens| && Fits(cfg, pc.piece))
    && (pc.Copying? ==> pc.k <= |pc.piece.data|)
    && (forall i :: 0 <= i < |queue| ==> queue[i].chunk < |cfg.lens|)
  }

  lemma {:induction false} FinishCopy(w: World, s: Sys, i: nat) returns (r: Sys)
    requires Shape(w.cfg, s) && i < |s.pcs| && s.pcs[i].Copying? && Able(w.cfg, s.pcs[i], [])
    ensures Leads(w, s, r) && Shape(w.cfg, r) && Worked(s, r) && r.queues == s.queues
    ensures r.pcs == s.pcs[i := Copying(s.pcs[i].piece, |s.pcs[i].piece.data|)]
    decreases |s.pcs[i].piece.data| - s.pcs[i].k
  {
    if s.pcs[i].k == |s.pcs[i].piece.data| {
      r := s;
      Stay(w, s);
    } else {
      var m := Onward(w, s, CopyByte(i));
      r := FinishCopy(w, m, i);
      Then(w, s, m, r);
    }
  }

  lemma FinishReport(w: World, s: Sys, i: nat) returns (r: Sys)
    requires Shape(w.cfg, s) && i < |s.pcs| && !s.pcs[i].Copying? && !s.pcs[i].First?
    ensures Leads(w, s, r) && Shape(w.cfg, r) && Worked(s, r) && r.queues == s.queues && r.pcs == s.pcs[i := Idle]
  {
    if s.pcs[i].Last? {
      r := Onward(w, s, Report(i));
    } else {
      r := s;
      Stay(w, s);
    }
  }

  lemma FinishCount(w: World, s: Sys, i: nat) returns (r: Sys)
    requires Shape(w.cfg, s) && i < |s.pcs| && !s.pcs[i].Copying? && Able(w.cfg, s.pcs[i], [])
    ensures Leads(w, s, r) && Shape(w.cfg, r) && Worked(s, r) && r.queues == s.queues && r.pcs == s.pcs[i := Idle]
  {
    if s.pcs[i].First? {
      var m := Onward(w, s, CountDown(i));
      r := FinishReport(w, m, i);
      Then(w, s, m, r);
    } else {
      r := FinishReport(w, s, i);
    }
  }

  lemma FinishPiece(w: World, s: Sys, i: nat) returns (r: Sys)
    requires Shape(w.cfg, s) && i < |s.pcs| && Able(w.cfg, s.pcs[i], [])
    ensures Leads(w, s, r) && Shape(w.cfg, r) && Worked(s, r) && r.queues == s.queues && r.pcs == s.pcs[i := Idle]
  {
    if s.pcs[i].Copying? {
      var m := FinishCopy(w, s, i);
      var n := Onward(w, m, Mark(i));
      r := FinishCount(w, n, i);
      Then(w, s, m, n);
      Then(w, s, n, r);
    } else {
      r := FinishCount(w, s, i);
    }
  }

  lemma {:induction false} DrainWorker(w: World, s: Sys, i: nat) returns (r: Sys)
    requires Shape(w.cfg, s) && i < |s.pcs| && Able(w.cfg, s.pcs[i], s.queues[i])
    ensures Leads(w, s, r) && Shape(w.cfg, r) && Worked(s, r)
    ensures r.queues == s.queues[i := []] && r.pcs == s.pcs[i := Idle]
    decreases |s.queues[i]|
  {
    r := FinishPiece(w, s, i);
    if s.queues[i] != [] {
      var m := r;
      var n := Onward(w, m, Take(i));
      r := DrainWorker(w, n, i);
      Then(w, s, m, n);
      Then(w, s, n, r);
    }
  }

  lemma {:induction false} DrainWorkers(w: World, s: Sys, i: nat) returns (r: Sys)
    requires Shape(w.cfg, s) && i <= |s.pcs|
    requires forall j :: 0 <= j < i ==> s.pcs[j] == Idle && s.queues[j] == []
    requires forall j :: i <= j < |s.pcs| ==> Able(w.cfg, s.pcs[j], s.queues[j])
    ensures Leads(w, s, r) && Worked(s, r) && |r.pcs| == |r.queues| == |s.pcs|
    ensures forall j :: 0 <= j < |r.pcs| ==> r.pcs[j] == Idle && r.queues[j] == []
    decreases |s.pcs| - i
  {
    r := s;
    Stay(w, s);
    if i < |s.pcs| {
      var m := DrainWorker(w, s, i);
      r := DrainWorkers(w, m, i + 1);
      Then(w, s, m, r);
    }
  }

  lemma WorkersAreAble(cfg: Config, s: Sys, i: nat)
    requires PipeInv(cfg, s) && i < |s.pcs|
    ensures Able(cfg, s.pcs[i], s.queues[i])
  {
    assert WorkerOk(cfg, s, i);
    forall k | 0 <= k < |s.queues[i]| ensures s.queues[i][k].chunk < |cfg.lens| {
      assert PieceKnown(cfg, s, i, s.queues[i][k]);
    }
  }

  // ---------------------------------------------------------------- a verifier finishes its chunk

  /** Only what verifiers write has changed. */
  ghost predicate Verified(s: Sys, r: Sys) {
    r == s.(verifyQ := r.verifyQ, verifiers := r.verifiers, results := r.results)
  }

  /** The verifier reads a chunk of this file. */
  ghost predicate Legible(cfg: Config, v: Verifier) {
    v.Reading? ==> v.msg.chunk < |cfg.lens| && |v.read| <= cfg.lens[v.msg.chunk]
  }

  lemma {:induction false} FinishRead(w: World, s: Sys, v: nat) returns (r: Sys)
    requires Shape(w.cfg, s) && v < |s.verifiers| && s.verifiers[v].Reading? && Legible(w.cfg, s.verifiers[v])
    ensures Leads(w, s, r) && Shape(w.cfg, r) && Verified(s, r) && r.verifyQ == s.verifyQ
    ensures r.verifiers == s.verifiers[v := Free]
    decreases w.cfg.lens[s.verifiers[v].msg.chunk] - |s.verifiers[v].read|
  {
    if |s.verifiers[v].read| == w.cfg.lens[s.verifiers[v].msg.chunk] {
      r := Onward(w, s, Post(v));
    } else {
      var m := Onward(w, s, ReadByte(v));
      r := FinishRead(w, m, v);
      Then(w, s, m, r);
    }
  }

  lemma {:induction false} FreeVerifiers(w: World, s: Sys, v: nat) returns (r: Sys)
    requires Shape(w.cfg, s) && v <= |s.verifiers| && forall j :: 0 <= j < v ==> s.verifiers[j] == Free
    requires forall j :: v <= j < |s.verifiers| ==> Legible(w.cfg, s.verifiers[j])
    ensures Leads(w, s, r) && Shape(w.cfg, r) && Verified(s, r) && r.verifyQ == s.verifyQ
    ensures |r.verifiers| == |s.verifiers| && forall j :: 0 <= j < |r.verifiers| ==> r.verifiers[j] == Free
    decreases |s.verifiers| - v
  {
    r := s;
    Stay(w, s);
    if v < |s.verifiers| {
      var m := s;
      if s.verifiers[v].Reading? { m := FinishRead(w, s, v); }
      r := FreeVerifiers(w, m, v + 1);
      Then(w, s, m, r);
    }
  }

  lemma {:induction false} EmptyVerifyQueue(w: World, s: Sys) returns (r: Sys)
    requires Shape(w.cfg, s) && |s.verifiers| > 0 && forall j :: 0 <= j < |s.verifiers| ==> s.verifiers[j] == Free
    requires forall i :: 0 <= i < |s.verifyQ| ==> s.verifyQ[i].chunk < |w.cfg.lens|
    ensures Leads(w, s, r) && Verified(s, r) && r.verifyQ == []
    ensures forall j :: 0 <= j < |r.verifiers| ==> r.verifiers[j] == Free
    decreases |s.verifyQ|
  {
    r := s;
    Stay(w, s);
    if s.verifyQ != [] {
      var m := Onward(w, s, Fetch(0));
      var n := FinishRead(w, m, 0);
      r := EmptyVerifyQueue(w, n);
      Then(w, s, m, n);
      Then(w, s, n, r);
    }
  }

  // ---------------------------------------------------------------- everyone at rest

  /** No worker and no verifier has anything left to do. */
  ghost predicate Quiet(s: Sys) {
    && (forall j :: 0 <= j < |s.pcs| ==> s.pcs[j] == Idle) && (forall j :: 0 <= j < |s.queues| ==> s.queues[j] == [])
    && (forall j :: 0 <= j < |s.verifiers| ==> s.verifiers[j] == Free) && s.verifyQ == []
  }

  lemma WorkersRest(w: World, s: Sys) returns (r: Sys)
    requires Fine(w, s)
    ensures Leads(w, s, r) && Fine(w, r) && Worked(s, r) && |r.pcs| == |r.queues| == |s.pcs|
    ensures forall j :: 0 <= j < |r.pcs| ==> r.pcs[j] == Idle && r.queues[j] == []
  {
    forall j | 0 <= j < |s.pcs| ensures Able(w.cfg, s.pcs[j], s.queues[j]) { WorkersAreAble(w.cfg, s, j); }
    r := DrainWorkers(w, s, 0);
    LeadsFine(w, s, r);
  }

  lemma VerifiersRest(w: World, s: Sys) returns (r: Sys)
    requires Fine(w, s)
    ensures Leads(w, s, r) && Fine(w, r) && Verified(s, r) && r.verifyQ == []
    ensures forall j :: 0 <= j < |r.verifiers| ==> r.verifiers[j] == Free
  {
    assert InRange(w.cfg, s);
    var m := FreeVerifiers(w, s, 0);
    r := EmptyVerifyQueue(w, m);
    Then(w, s, m, r);
    LeadsFine(w, s, r);
  }

  /** Workers and verifiers can always come to rest, and the scheduler does not notice. */
  lemma Drain(w: World, s: Sys) returns (r: Sys)
    requires Fine(w, s)
    ensures Leads(w, s, r) && Fine(w, r) && Quiet(r)
    ensures r.sched == s.sched && r.delivered == s.delivered && r.task == s.task
  {
    var m := WorkersRest(w, s);
    r := VerifiersRest(w, m);
    Then(w, s, m, r);
  }
}
