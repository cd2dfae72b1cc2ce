/** A slot may be delivered more than once. When that leaves a COMPLETE chunk with the bytes that were
    verified, and when a late duplicate spoils it. */
module PipelineDuplicates {
  import opened Counting
  import opened Assembly
  import opened SchedulerModel
  import opened SchedulerInvariant
  import opened SchedulerRuns
  import opened SchedulerEvents
  import opened Pipeline
  import opened PipelineInvariant
  import opened PipelineSteps
  import opened PipelineRuns
  import opened PipelineMemory

  // ---------------------------------------------------------------- logs and effects only grow

  lemma {:induction false} SettledScheduler(cfg: Config, d: Settlement, results: seq<VerifyResult>, k: nat)
    requires SettlementOk(cfg, d) && ResultsInRange(cfg, results) && k <= |results| && Inv(d.sched)
    ensures Inv(SettleFrom(cfg, d, results, k).sched) && SettleFrom(cfg, d, results, k).sched.effects == d.sched.effects
    decreases |results| - k
  {
    if k < |results| {
      if !results[k].passed { VerifyFailedKeeps(d.sched, results[k].chunk); }
      SettledScheduler(cfg, SettleOne(cfg, d, results[k]), results, k + 1);
    }
  }

  lemma EffectsGrow(cfg: Config, s: Sys, step: Step)
    requires PipeInv(cfg, s) && CanDo(cfg, s, step)
    ensures s.sched.effects <= Do(cfg, s, step).sched.effects && s.delivered <= Do(cfg, s, step).delivered
  {
    if step.Net? {
      NetEventKeeps(s.sched, step.event);
    } else if step.Deliver? {
      OnPieceKeeps(s.sched, step.peer, step.chunk, step.begin, step.now);
    } else if step.Settle? {
      SettleGrows(cfg, s, step.now, step.trackerDead);
    }
  }

  lemma SettleGrows(cfg: Config, s: Sys, now: nat, trackerDead: bool)
    requires CanSettle(cfg, s)
    ensures s.sched.effects <= DoSettle(cfg, s, now, trackerDead).sched.effects
  {
    TickKeeps(s.sched, now);
    var start := Settlement(Tick(s.sched, now), [], s.bytesDone, s.passes, s.fails);
    SettledScheduler(cfg, start, s.results, 0);
    var d := SettleFrom(cfg, start, s.results, 0);
    if d.passed != [] { ProcessCompletionsKeeps(d.sched, d.passed); }
  }

  // ---------------------------------------------------------------- pieces that agree

  /** Any two accepted pieces for the same slot of c carry the same bytes. */
  ghost predicate Agree(cfg: Config, log: seq<Piece>, c: nat) {
    forall p, q | p in log && q in log ::
      Accepted(cfg, p, c) && Accepted(cfg, q, c) && SlotOf(p) == SlotOf(q) ==> p.data == q.data
  }

  ghost predicate Accepted(cfg: Config, p: Piece, c: nat) {
    p.chunk == c < |cfg.lens| && PieceOk(cfg, p) && Fits(cfg, p)
  }

  /** Once a chunk has been reported, copying a duplicate over it changes nothing. */
  lemma DuplicateChangesNothing(cfg: Config, s: Sys, w: nat, c: nat)
    requires PipeInv(cfg, s) && MemInv(cfg, s) && CanCopy(s, w) && c < |cfg.lens| && Agree(cfg, s.delivered, c)
    requires Tokens(s, c) + s.passes[c] + s.fails[c] > 0
    ensures DoCopy(s, w).asm[c].mem == s.asm[c].mem
  {
    var p, k := s.pcs[w].piece, s.pcs[w].k;
    assert WorkerOk(cfg, s, w);
    SlotOfPiece(cfg, p);
    if p.chunk == c {
      var slot := SlotOf(p);
      assert ChunkOk(cfg, s, c) && SlotSound(cfg, s, c, slot);
      AllMarkedWhenReported(cfg, s, c);
      var bytes := SlotBytes(s.asm[c].mem, slot);
      var i :| 0 <= i < |s.delivered| && HeldBy(s.delivered[i], c, slot, bytes, k);
      HeldIsAccepted(cfg, s, c, slot, s.delivered[i], bytes, k);
      assert p.data[k] == p.data[k..][0] == bytes[k..][0] == bytes[k];
    }
  }

  lemma HeldIsAccepted(cfg: Config, s: Sys, c: nat, slot: nat, q: Piece, bytes: seq<byte>, k: nat)
    requires PipeInv(cfg, s) && q in s.delivered && c < |cfg.lens| && HeldBy(q, c, slot, bytes, k)
    requires |bytes| == SlotLength(cfg.lens[c], SUB_BLOCK_SIZE, slot) && slot < SlotCount(cfg, c)
    ensures Accepted(cfg, q, c)
  {
    SlotOfPiece(cfg, q);
    SlotStartsInside(cfg.lens[c], SUB_BLOCK_SIZE, slot);
  }

  // ---------------------------------------------------------------- what is kept

  ghost predicate Matches(cfg: Config, s: Sys, c: nat)
    requires Shape(cfg, s) && c < |cfg.lens|
  {
    cfg.hash(s.asm[c].mem) == cfg.expected[c]
  }

  /** A verifier of c has read what stands there; a verdict that passed, a pass, and a restored chunk
      nobody asked for stand for bytes that match. */
  ghost predicate Truthful(cfg: Config, s: Sys, c: nat)
    requires Shape(cfg, s) && c < |cfg.lens|
  {
    && (forall v :: 0 <= v < |s.verifiers| && IsReading(c)(s.verifiers[v]) ==> s.verifiers[v].read <= s.asm[c].mem)
    && (forall i :: 0 <= i < |s.results| && s.results[i].chunk == c && s.results[i].passed ==> Matches(cfg, s, c))
    && (s.passes[c] > 0 ==> Matches(cfg, s, c))
    && (c in cfg.restored && !AskedFor(s.sched.effects, c) ==> Matches(cfg, s, c))
  }

  lemma CopyTruthful(cfg: Config, s: Sys, w: nat, c: nat)
    requires PipeInv(cfg, s) && MemInv(cfg, s) && CanCopy(s, w) && c < |cfg.lens| && Agree(cfg, s.delivered, c)
    requires Truthful(cfg, s, c) && Shape(cfg, DoCopy(s, w))
    ensures Truthful(cfg, DoCopy(s, w), c)
  {
    assert WorkerOk(cfg, s, w);
    if Tokens(s, c) + s.passes[c] + s.fails[c] > 0 {
      DuplicateChangesNothing(cfg, s, w, c);
    } else {
      forall v | 0 <= v < |s.verifiers| ensures !IsReading(c)(s.verifiers[v]) {
        if IsReading(c)(s.verifiers[v]) { CountIfSome(s.verifiers, v, IsReading(c)); }
      }
      forall i | 0 <= i < |s.results| ensures s.results[i].chunk != c {
        if s.results[i].chunk == c { CountIfSome(s.results, i, IsResult(c)); }
      }
    }
  }

  lemma ReadTruthful(cfg: Config, s: Sys, v: nat, c: nat)
    requires Shape(cfg, s) && CanRead(s, v) && c < |cfg.lens| && Truthful(cfg, s, c)
    ensures Truthful(cfg, DoRead(s, v), c)
  {
    var read, mem := s.verifiers[v].read, s.asm[s.verifiers[v].msg.chunk].mem;
    if IsReading(c)(s.verifiers[v]) {
      assert read + [mem[|read|]] == mem[..|read| + 1];
    }
  }

  lemma PostTruthful(cfg: Config, s: Sys, v: nat, c: nat)
    requires Shape(cfg, s) && CanPost(cfg, s, v) && c < |cfg.lens| && Truthful(cfg, s, c)
    ensures Truthful(cfg, DoPost(cfg, s, v), c)
  {
    var r := DoPost(cfg, s, v);
    if IsReading(c)(s.verifiers[v]) { assert s.verifiers[v].read == s.asm[c].mem; }
    assert forall i :: 0 <= i < |s.results| ==> r.results[i] == s.results[i];
  }

  lemma {:induction false} PassesCome(cfg: Config, d: Settlement, results: seq<VerifyResult>, k: nat, c: nat)
    requires SettlementOk(cfg, d) && ResultsInRange(cfg, results) && k <= |results| && c < |cfg.lens|
    ensures SettleFrom(cfg, d, results, k).passes[c] > 0 ==>
              d.passes[c] > 0 || exists i :: k <= i < |results| && results[i].chunk == c && results[i].passed
    decreases |results| - k
  {
    if k < |results| { PassesCome(cfg, SettleOne(cfg, d, results[k]), results, k + 1, c); }
  }

  lemma SettleTruthful(cfg: Config, s: Sys, now: nat, trackerDead: bool, c: nat)
    requires PipeInv(cfg, s) && CanSettle(cfg, s) && c < |cfg.lens| && Truthful(cfg, s, c)
    requires Shape(cfg, DoSettle(cfg, s, now, trackerDead))
    requires s.sched.effects <= DoSettle(cfg, s, now, trackerDead).sched.effects
    ensures Truthful(cfg, DoSettle(cfg, s, now, trackerDead), c)
  {
    TickKeeps(s.sched, now);
    PassesCome(cfg, Settlement(Tick(s.sched, now), [], s.bytesDone, s.passes, s.fails), s.results, 0, c);
    AskedForEarlier(s.sched.effects, DoSettle(cfg, s, now, trackerDead).sched.effects, c);
  }

  lemma AskedForEarlier(a: seq<Effect>, b: seq<Effect>, c: nat)
    requires a <= b
    ensures !AskedFor(b, c) ==> !AskedFor(a, c)
  {
    if AskedFor(a, c) { AskedForStays(a, b, c); }
  }

  /** Nothing that Truthful speaks of has changed, except that verifiers may have started. */
  ghost predicate Untouched(s: Sys, r: Sys, c: nat) {
    && c < |s.asm| == |r.asm| && r.asm[c].mem == s.asm[c].mem && r.results == s.results && r.passes == s.passes
    && |r.verifiers| == |s.verifiers|
    && (forall v :: 0 <= v < |r.verifiers| && IsReading(c)(r.verifiers[v]) ==>
          r.verifiers[v].read == [] || r.verifiers[v] == s.verifiers[v])
  }

  lemma UntouchedTruthful(cfg: Config, s: Sys, r: Sys, c: nat)
    requires Shape(cfg, s) && Shape(cfg, r) && c < |cfg.lens| && Truthful(cfg, s, c) && Untouched(s, r, c)
    requires s.sched.effects <= r.sched.effects
    ensures Truthful(cfg, r, c)
  {
    AskedForEarlier(s.sched.effects, r.sched.effects, c);
  }

  lemma OthersTouchNothing(cfg: Config, s: Sys, step: Step, c: nat)
    requires CanDo(cfg, s, step) && c < |s.asm|
    requires !step.CopyByte? && !step.ReadByte? && !step.Post? && !step.Settle?
    ensures Untouched(s, Do(cfg, s, step), c)
  {
  }

  lemma StepTruthful(cfg: Config, s: Sys, step: Step, c: nat)
    requires PipeInv(cfg, s) && MemInv(cfg, s) && CanDo(cfg, s, step) && c < |cfg.lens| && Agree(cfg, s.delivered, c)
    requires Truthful(cfg, s, c) && Shape(cfg, Do(cfg, s, step))
    ensures Truthful(cfg, Do(cfg, s, step), c)
  {
    if step.CopyByte? {
      CopyTruthful(cfg, s, step.w, c);
    } else if step.ReadByte? {
      ReadTruthful(cfg, s, step.v, c);
    } else if step.Post? {
      PostTruthful(cfg, s, step.v, c);
    } else {
      EffectsGrow(cfg, s, step);
      LaterTruthful(cfg, s, step, c);
    }
  }

  lemma LaterTruthful(cfg: Config, s: Sys, step: Step, c: nat)
    requires PipeInv(cfg, s) && CanDo(cfg, s, step) && c < |cfg.lens| && Truthful(cfg, s, c)
    requires !step.CopyByte? && !step.ReadByte? && !step.Post? && Shape(cfg, Do(cfg, s, step))
    requires s.sched.effects <= Do(cfg, s, step).sched.effects
    ensures Truthful(cfg, Do(cfg, s, step), c)
  {
    if step.Settle? {
      SettleTruthful(cfg, s, step.now, step.trackerDead, c);
    } else {
      OthersTouchNothing(cfg, s, step, c);
      UntouchedTruthful(cfg, s, Do(cfg, s, step), c);
    }
  }

  lemma {:induction false} RunTruthful(cfg: Config, s: Sys, steps: seq<Step>, r: Sys, c: nat)
    requires PipeInv(cfg, s) && MemInv(cfg, s) && Pipeline.Reaches(cfg, s, steps, r) && c < |cfg.lens|
    requires Truthful(cfg, s, c) && Agree(cfg, r.delivered, c)
    ensures s.delivered <= r.delivered && PipeInv(cfg, r) && Truthful(cfg, r, c)
    decreases |steps|
  {
    LogGrows(cfg, s, steps, r);
    if |steps| > 0 {
      var s1 := Do(cfg, s, steps[0]);
      MemoryStep(cfg, s, steps[0]);
      assert Agree(cfg, s.delivered, c) by { PrefixAgrees(cfg, s.delivered, r.delivered, c); }
      StepTruthful(cfg, s, steps[0], c);
      RunTruthful(cfg, s1, steps[1..], r, c);
    }
  }

  lemma PrefixAgrees(cfg: Config, a: seq<Piece>, b: seq<Piece>, c: nat)
    requires a <= b && Agree(cfg, b, c)
    ensures Agree(cfg, a, c)
  {
    forall p | p in a ensures p in b {
      var i :| 0 <= i < |a| && a[i] == p;
      assert b[i] == p;
    }
  }

  lemma {:induction false} LogGrows(cfg: Config, s: Sys, steps: seq<Step>, r: Sys)
    requires PipeInv(cfg, s) && Pipeline.Reaches(cfg, s, steps, r)
    ensures s.delivered <= r.delivered
    decreases |steps|
  {
    if |steps| > 0 {
      StepKeeps(cfg, s, steps[0]);
      EffectsGrow(cfg, s, steps[0]);
      LogGrows(cfg, Do(cfg, s, steps[0]), steps[1..], r);
    }
  }

  /** Over every run, honest peers or not: if all accepted pieces of a chunk agree slot by slot, and the
      chunk was intact if it was restored, then once it is COMPLETE its bytes hash to the seed's entry. */
  lemma CompleteChunkMatches(cfg: Config, s: Sys, localSpeed: nat, order: seq<nat>, bits: seq<bool>, steps: seq<Step>,
                             r: Sys, c: nat)
    requires Started(cfg, s, localSpeed, order, bits) && Pipeline.Reaches(cfg, s, steps, r) && c < |cfg.lens|
    requires bits[c] ==> cfg.hash(s.asm[c].mem) == cfg.expected[c]
    requires Agree(cfg, r.delivered, c)
    ensures |r.sched.chunks| == |r.asm| == |cfg.lens|
    ensures r.sched.chunks[c] == Complete ==> cfg.hash(r.asm[c].mem) == cfg.expected[c]
  {
    StartMemory(cfg, s, localSpeed, order, bits);
    RunTruthful(cfg, s, steps, r, c);
    assert ChunkOk(cfg, r, c);
  }

  // ---------------------------------------------------------------- a late duplicate that differs

  /** Some run leads from s to r. */
  ghost predicate Leadsto(cfg: Config, s: Sys, r: Sys) { exists steps :: Pipeline.Reaches(cfg, s, steps, r) }

  lemma Here(cfg: Config, s: Sys)
    ensures Leadsto(cfg, s, s)
  {
    assert Pipeline.Reaches(cfg, s, [], s);
  }

  lemma Before(cfg: Config, s: Sys, step: Step, s1: Sys, r: Sys)
    requires CanDo(cfg, s, step) && Do(cfg, s, step) == s1 && Leadsto(cfg, s1, r)
    ensures Leadsto(cfg, s, r)
  {
    var steps :| Pipeline.Reaches(cfg, s1, steps, r);
    assert ([step] + steps)[1..] == steps;
    assert Pipeline.Reaches(cfg, s, [step] + steps, r);
  }

  lemma {:induction false} CopyToEnd(cfg: Config, s: Sys, w: nat, p: Piece, k: nat)
    requires w < |s.pcs| && p.chunk < |s.asm| && k <= |p.data| && p.begin + |p.data| <= |s.asm[p.chunk].mem|
    ensures Leadsto(cfg, CopiedTo(s, w, p, k), CopiedTo(s, w, p, |p.data|))
    decreases |p.data| - k
  {
    Here(cfg, CopiedTo(s, w, p, |p.data|));
    if k < |p.data| {
      CopyTurn(cfg, s, w, p, k);
      CopyToEnd(cfg, s, w, p, k + 1);
      Before(cfg, CopiedTo(s, w, p, k), CopyByte(w), CopiedTo(s, w, p, k + 1), CopiedTo(s, w, p, |p.data|));
    }
  }

  /** Any second answer to a request for a COMPLETE chunk, once its worker gets to it, replaces the
      verified bytes, and the chunk stays COMPLETE: it still matches exactly if the new bytes do. */
  lemma LateDuplicateReplaces(cfg: Config, s: Sys, p: Piece, now: nat) returns (r: Sys)
    requires PipeInv(cfg, s) && CanDeliver(cfg, s, p) && p.chunk < |cfg.lens| && Fits(cfg, p)
    requires s.sched.chunks[p.chunk] == Complete
    requires var w := Route(cfg, p.chunk, SlotOf(p)); s.pcs[w] == Idle && s.queues[w] == []
    ensures Leadsto(cfg, s, r) && |r.sched.chunks| == |r.asm| == |cfg.lens| && r.sched.chunks[p.chunk] == Complete
    ensures r.asm[p.chunk].mem == Overwrite(s.asm[p.chunk].mem, p.begin, p.data)
  {
    var w, c := Route(cfg, p.chunk, SlotOf(p)), p.chunk;
    var step := Deliver(p.peer, c, p.begin, p.data, now);
    var s1 := Do(cfg, s, step);
    OnPieceKeeps(s.sched, p.peer, c, p.begin, now);
    r := TakenAndCopied(cfg, s1, w, p);
    Before(cfg, s, step, s1, r);
  }

  lemma TakenAndCopied(cfg: Config, s: Sys, w: nat, p: Piece) returns (r: Sys)
    requires w < |s.pcs| && s.pcs[w] == Idle && w < |s.queues| && s.queues[w] == [p]
    requires p.chunk < |cfg.lens| == |s.asm| && Fits(cfg, p) && |s.asm[p.chunk].mem| == cfg.lens[p.chunk]
    ensures Leadsto(cfg, s, r) && r.sched == s.sched && |r.asm| == |s.asm|
    ensures r.asm[p.chunk].mem == Overwrite(s.asm[p.chunk].mem, p.begin, p.data)
  {
    var s1 := DoTake(cfg, s, w);
    assert Overwrite(s.asm[p.chunk].mem, p.begin, p.data[..0]) == s.asm[p.chunk].mem;
    assert s1 == CopiedTo(s1, w, p, 0);
    r := CopiedTo(s1, w, p, |p.data|);
    assert p.data[..|p.data|] == p.data;
    CopyToEnd(cfg, s1, w, p, 0);
    Before(cfg, s, Take(w), s1, r);
  }
}
