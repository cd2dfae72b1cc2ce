/** What every step of the pipeline keeps. */
module PipelineInvariant {
  import opened Counting
  import opened Assembly
  import opened SchedulerModel
  import opened SchedulerInvariant
  import opened SchedulerEvents
  import opened Pipeline

  // ---------------------------------------------------------------- tokens

  function IsFirst(c: nat): Worker -> bool { (w: Worker) => w.First? && w.piece.chunk == c }
  function IsLast(c: nat): Worker -> bool { (w: Worker) => w.Last? && w.piece.chunk == c }
  function IsQueued(c: nat): Completion -> bool { (m: Completion) => m.chunk == c }
  function IsReading(c: nat): Verifier -> bool { (v: Verifier) => v.Reading? && v.msg.chunk == c }
  function IsResult(c: nat): VerifyResult -> bool { (r: VerifyResult) => r.chunk == c }

  /** How many reports of chunk c's completion are on their way to the main thread. */
  function Tokens(s: Sys, c: nat): nat {
    CountIf(s.pcs, IsLast(c)) + CountIf(s.verifyQ, IsQueued(c))
    + CountIf(s.verifiers, IsReading(c)) + CountIf(s.results, IsResult(c))
  }

  /** Slots not marked, plus marks whose countdown is still to come. */
  ghost predicate PendingExact(cfg: Config, s: Sys, c: nat)
    requires c < |cfg.lens| && c < |s.asm|
  {
    && s.asm[c].marked <= AllSlots(SlotCount(cfg, c))
    && s.asm[c].pending == SlotCount(cfg, c) - |s.asm[c].marked| + CountIf(s.pcs, IsFirst(c))
  }

  /** A chunk has been reported, and the report settled, exactly as often as its countdown ended. */
  ghost predicate TokenLaw(s: Sys, c: nat)
    requires c < |s.asm| && c < |s.passes| && c < |s.fails|
  {
    Tokens(s, c) + s.passes[c] + s.fails[c] == if s.asm[c].pending == 0 then 1 else 0
  }

  // ---------------------------------------------------------------- pieces

  ghost predicate PieceKnown(cfg: Config, s: Sys, w: nat, p: Piece)
    requires cfg.workers > 0
  {
    p in s.delivered && Route(cfg, p.chunk, SlotOf(p)) == w
  }

  ghost predicate WorkerOk(cfg: Config, s: Sys, w: nat)
    requires cfg.workers > 0 && w < |s.pcs| && w < |s.queues| && |s.asm| == |cfg.lens|
  {
    && (forall i :: 0 <= i < |s.queues[w]| ==> PieceKnown(cfg, s, w, s.queues[w][i]))
    && (s.pcs[w] != Idle ==>
          var p := s.pcs[w].piece;
          && PieceKnown(cfg, s, w, p) && PieceOk(cfg, p) && Fits(cfg, p)
          && (s.pcs[w].Copying? ==> s.pcs[w].k <= |p.data|)
          && (!s.pcs[w].Copying? ==> SlotOf(p) in s.asm[p.chunk].marked))
  }

  ghost predicate AskedFor(effects: seq<Effect>, c: nat) {
    exists i :: 0 <= i < |effects| && effects[i].Request? && effects[i].chunk == c
  }

  ghost predicate DeliveredOk(cfg: Config, s: Sys) {
    forall p | p in s.delivered :: PieceOk(cfg, p) && AskedFor(s.sched.effects, p.chunk)
  }

  ghost predicate InRange(cfg: Config, s: Sys) {
    && (forall i :: 0 <= i < |s.verifyQ| ==> s.verifyQ[i].chunk < |cfg.lens|)
    && (forall i :: 0 <= i < |s.verifiers| && s.verifiers[i].Reading? ==>
          s.verifiers[i].msg.chunk < |cfg.lens| && |s.verifiers[i].read| <= cfg.lens[s.verifiers[i].msg.chunk])
    && ResultsInRange(cfg, s.results)
  }

  // ---------------------------------------------------------------- the scheduler's side

  ghost predicate EffectOk(cfg: Config, e: Effect) {
    e.Request? ==> e.chunk < |cfg.lens| && e.begin % SUB_BLOCK_SIZE == 0 && e.begin < cfg.lens[e.chunk]
  }

  ghost predicate SchedOk(cfg: Config, s: Sys) {
    && Inv(s.sched) && Accounted(s.sched)
    && |s.sched.subBlocks| == |cfg.lens|
    && (forall c :: 0 <= c < |cfg.lens| ==> s.sched.subBlocks[c] == SlotCount(cfg, c))
    && (forall i :: 0 <= i < |s.sched.effects| ==> EffectOk(cfg, s.sched.effects[i]))
  }

  /** A chunk is COMPLETE because it passed, or because it was restored and nobody asked for it; it
      stays open once it failed. */
  ghost predicate ChunkLaw(cfg: Config, s: Sys, c: nat)
    requires c < |s.sched.chunks| && c < |s.asm| && c < |s.passes| && c < |s.fails|
  {
    && (s.sched.chunks[c] == Complete ==> s.fails[c] == 0)
    && (s.sched.chunks[c] == Complete ==> s.passes[c] > 0 || (c in cfg.restored && !AskedFor(s.sched.effects, c)))
    && (s.passes[c] > 0 ==> s.sched.chunks[c] == Complete)
    && (s.asm[c].marked != {} ==> AskedFor(s.sched.effects, c))
  }

  function DoneBytes(chunks: seq<ChunkState>, lens: seq<nat>): nat
    requires |chunks| == |lens|
  {
    if chunks == [] then 0 else (if chunks[0] == Complete then lens[0] else 0) + DoneBytes(chunks[1..], lens[1..])
  }

  ghost predicate TaskLaw(cfg: Config, s: Sys)
    requires |s.sched.chunks| == |cfg.lens|
  {
    && s.bytesDone == DoneBytes(s.sched.chunks, cfg.lens)
    && (s.task == TaskComplete ==> forall c :: 0 <= c < |s.sched.chunks| ==> s.sched.chunks[c] == Complete)
  }

  ghost predicate ChunkOk(cfg: Config, s: Sys, c: nat)
    requires c < |cfg.lens| && c < |s.sched.chunks| && c < |s.asm| && c < |s.passes| && c < |s.fails|
  {
    PendingExact(cfg, s, c) && TokenLaw(s, c) && ChunkLaw(cfg, s, c)
  }

  ghost predicate PipeInv(cfg: Config, s: Sys) {
    && Shape(cfg, s)
    && SchedOk(cfg, s)
    && DeliveredOk(cfg, s)
    && InRange(cfg, s)
    && TaskLaw(cfg, s)
    && (forall w :: 0 <= w < cfg.workers ==> WorkerOk(cfg, s, w))
    && (forall c :: 0 <= c < |cfg.lens| ==> ChunkOk(cfg, s, c))
  }

  // ---------------------------------------------------------------- small consequences

  lemma SlotOfPiece(cfg: Config, p: Piece)
    requires PieceOk(cfg, p)
    ensures SlotOf(p) < SlotCount(cfg, p.chunk) && SlotOf(p) * SUB_BLOCK_SIZE == p.begin
    ensures Fits(cfg, p) ==> |p.data| == SlotLength(cfg.lens[p.chunk], SUB_BLOCK_SIZE, SlotOf(p))
  {
    SlotInRange(cfg.lens[p.chunk], SUB_BLOCK_SIZE, p.begin);
  }

  lemma SlotCountPositive(cfg: Config, c: nat)
    requires ConfigOk(cfg) && c < |cfg.lens|
    ensures SlotCount(cfg, c) > 0 && SlotCount(cfg, c) == SubBlockCount(cfg.lens[c])
  {
  }

  /** While a report is on its way the chunk is not COMPLETE. */
  lemma NotCompleteWhileReported(cfg: Config, s: Sys, c: nat)
    requires Shape(cfg, s) && c < |cfg.lens| && ChunkOk(cfg, s, c) && Tokens(s, c) > 0
    ensures s.sched.chunks[c] != Complete && s.passes[c] == 0 && s.fails[c] == 0 && Tokens(s, c) == 1
  {
    SlotCountPositive(cfg, c);
  }

  /** A report means that every slot has been marked. */
  lemma AllMarkedWhenReported(cfg: Config, s: Sys, c: nat)
    requires Shape(cfg, s) && c < |cfg.lens| && ChunkOk(cfg, s, c)
    requires Tokens(s, c) + s.passes[c] + s.fails[c] > 0
    ensures s.asm[c].marked == AllSlots(SlotCount(cfg, c))
  {
    FullWhenCounted(s.asm[c].marked, SlotCount(cfg, c));
  }
}
