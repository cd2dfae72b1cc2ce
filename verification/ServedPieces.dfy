/** Which chunks can be put together at all from pieces a peer reads out of the published file. */
module ServedPieces {
  import opened Assembly
  import opened Pipeline
  import opened PipelineInvariant
  import opened PipelineHonest
  import opened SchedulerModel
  import opened PipelineRuns
  import FastCdc
  import GearTable

  /** What a peer sends for a request of one sub-block: up to 16384 bytes, fewer at end of file. */
  function Serve(file: seq<byte>, offset: nat, begin: nat): seq<byte> {
    var off := offset + begin;
    if off >= |file| then []
    else if off + SUB_BLOCK_SIZE <= |file| then file[off..off + SUB_BLOCK_SIZE]
    else file[off..]
  }

  /** The pieces served for the given begins, received one after another. */
  function Feed(file: seq<byte>, offset: nat, a: Asm, begins: seq<nat>): (Asm, bool)
    decreases |begins|
  {
    if begins == [] then (a, false)
    else
      var (a1, done) := Receive(a, SUB_BLOCK_SIZE, begins[0], Serve(file, offset, begins[0]));
      var (r, later) := Feed(file, offset, a1, begins[1..]);
      (r, done || later)
  }

  ghost predicate Requestable(size: nat, begins: seq<nat>) {
    forall i :: 0 <= i < |begins| ==> begins[i] % SUB_BLOCK_SIZE == 0 && begins[i] < size
  }

  function Unstarted(mem: seq<byte>): Asm { Asm(mem, {}, Slots(|mem|, SUB_BLOCK_SIZE)) }

  /** Some requests, in some order, bring the chunk to completion. */
  ghost predicate CanComplete(file: seq<byte>, offset: nat, mem: seq<byte>) {
    exists begins :: Requestable(|mem|, begins) && Feed(file, offset, Unstarted(mem), begins).1
  }

  // ---------------------------------------------------------------- a ragged tail is always refused

  function LastSlot(size: nat): nat
    requires size > 0
  {
    (size - 1) / SUB_BLOCK_SIZE
  }

  lemma RaggedTailRefused(file: seq<byte>, offset: nat, a: Asm, begin: nat)
    requires |a.mem| > 0 && |a.mem| % SUB_BLOCK_SIZE != 0 && offset + |a.mem| < |file|
    requires begin % SUB_BLOCK_SIZE == 0 && begin < |a.mem|
    ensures var (a1, _) := Receive(a, SUB_BLOCK_SIZE, begin, Serve(file, offset, begin));
            LastSlot(|a.mem|) in a1.marked ==> LastSlot(|a.mem|) in a.marked
  {
    assert SUB_BLOCK_SIZE == 16384;
    if begin / SUB_BLOCK_SIZE == LastSlot(|a.mem|) {
      assert begin + |Serve(file, offset, begin)| > |a.mem|;
    }
  }

  lemma {:induction false} NeverFinishes(file: seq<byte>, offset: nat, a: Asm, begins: seq<nat>)
    requires |a.mem| > 0 && |a.mem| % SUB_BLOCK_SIZE != 0 && offset + |a.mem| < |file|
    requires Requestable(|a.mem|, begins) && LastSlot(|a.mem|) !in a.marked
    requires a.marked <= AllSlots(Slots(|a.mem|, SUB_BLOCK_SIZE))
    requires a.pending == Slots(|a.mem|, SUB_BLOCK_SIZE) - |a.marked|
    ensures !Feed(file, offset, a, begins).1
    decreases |begins|
  {
    if begins != [] {
      var begin, n := begins[0], Slots(|a.mem|, SUB_BLOCK_SIZE);
      var (a1, done) := Receive(a, SUB_BLOCK_SIZE, begin, Serve(file, offset, begin));
      RaggedTailRefused(file, offset, a, begin);
      ReceiveFinishes(a, SUB_BLOCK_SIZE, begin, Serve(file, offset, begin));
      SlotInRange(|a.mem|, SUB_BLOCK_SIZE, |a.mem| - 1);
      NeverFinishes(file, offset, a1, begins[1..]);
    }
  }

  // ---------------------------------------------------------------- otherwise every slot is accepted

  lemma ServedFits(file: seq<byte>, offset: nat, size: nat, slot: nat)
    requires size > 0 && offset + size <= |file| && slot < Slots(size, SUB_BLOCK_SIZE)
    requires size % SUB_BLOCK_SIZE == 0 || offset + size == |file|
    ensures slot * SUB_BLOCK_SIZE + |Serve(file, offset, slot * SUB_BLOCK_SIZE)| <= size
  {
    SlotStartsInside(size, SUB_BLOCK_SIZE, slot);
    assert SUB_BLOCK_SIZE == 16384;
  }

  /** The begins of slots k, k+1, ... in order. */
  function BeginsFrom(k: nat, n: nat): (r: seq<nat>)
    requires k <= n
    decreases n - k
  {
    if k == n then [] else [k * SUB_BLOCK_SIZE] + BeginsFrom(k + 1, n)
  }

  lemma {:induction false} BeginsAreRequestable(size: nat, k: nat)
    requires k <= Slots(size, SUB_BLOCK_SIZE)
    ensures Requestable(size, BeginsFrom(k, Slots(size, SUB_BLOCK_SIZE)))
    decreases Slots(size, SUB_BLOCK_SIZE) - k
  {
    if k < Slots(size, SUB_BLOCK_SIZE) {
      SlotStartsInside(size, SUB_BLOCK_SIZE, k);
      BeginsAreRequestable(size, k + 1);
    }
  }

  lemma {:induction false} InOrderFinishes(file: seq<byte>, offset: nat, a: Asm, k: nat)
    requires |a.mem| > 0 && offset + |a.mem| <= |file|
    requires |a.mem| % SUB_BLOCK_SIZE == 0 || offset + |a.mem| == |file|
    requires k < Slots(|a.mem|, SUB_BLOCK_SIZE) && a.marked == AllSlots(k)
    requires a.pending == Slots(|a.mem|, SUB_BLOCK_SIZE) - k
    ensures Feed(file, offset, a, BeginsFrom(k, Slots(|a.mem|, SUB_BLOCK_SIZE))).1
    decreases Slots(|a.mem|, SUB_BLOCK_SIZE) - k
  {
    var a1, done := FeedNext(file, offset, a, k);
    if !done { InOrderFinishes(file, offset, a1, k + 1); }
  }

  lemma FeedNext(file: seq<byte>, offset: nat, a: Asm, k: nat) returns (a1: Asm, done: bool)
    requires |a.mem| > 0 && offset + |a.mem| <= |file|
    requires |a.mem| % SUB_BLOCK_SIZE == 0 || offset + |a.mem| == |file|
    requires k < Slots(|a.mem|, SUB_BLOCK_SIZE) && a.marked == AllSlots(k)
    requires a.pending == Slots(|a.mem|, SUB_BLOCK_SIZE) - k
    ensures |a1.mem| == |a.mem| && a1.marked == AllSlots(k + 1)
    ensures a1.pending == Slots(|a.mem|, SUB_BLOCK_SIZE) - (k + 1)
    ensures done <==> k + 1 == Slots(|a.mem|, SUB_BLOCK_SIZE)
    ensures Feed(file, offset, a, BeginsFrom(k, Slots(|a.mem|, SUB_BLOCK_SIZE))).1 ==
            (done || Feed(file, offset, a1, BeginsFrom(k + 1, Slots(|a.mem|, SUB_BLOCK_SIZE))).1)
  {
    var begin := k * SUB_BLOCK_SIZE;
    var r := Receive(a, SUB_BLOCK_SIZE, begin, Serve(file, offset, begin));
    a1, done := r.0, r.1;
    InOrderStep(file, offset, a, k);
    FeedOne(file, offset, a, begin, BeginsFrom(k + 1, Slots(|a.mem|, SUB_BLOCK_SIZE)));
  }

  lemma FeedOne(file: seq<byte>, offset: nat, a: Asm, begin: nat, begins: seq<nat>)
    ensures var (a1, done) := Receive(a, SUB_BLOCK_SIZE, begin, Serve(file, offset, begin));
            Feed(file, offset, a, [begin] + begins).1 == (done || Feed(file, offset, a1, begins).1)
  {
    assert ([begin] + begins)[1..] == begins;
  }

  lemma InOrderStep(file: seq<byte>, offset: nat, a: Asm, k: nat)
    requires |a.mem| > 0 && offset + |a.mem| <= |file|
    requires |a.mem| % SUB_BLOCK_SIZE == 0 || offset + |a.mem| == |file|
    requires k < Slots(|a.mem|, SUB_BLOCK_SIZE) && a.marked == AllSlots(k)
    requires a.pending == Slots(|a.mem|, SUB_BLOCK_SIZE) - k
    ensures var (a1, done) := Receive(a, SUB_BLOCK_SIZE, k * SUB_BLOCK_SIZE, Serve(file, offset, k * SUB_BLOCK_SIZE));
            && a1.marked == AllSlots(k + 1) && a1.pending == Slots(|a.mem|, SUB_BLOCK_SIZE) - (k + 1)
            && (done <==> k + 1 == Slots(|a.mem|, SUB_BLOCK_SIZE))
  {
    ServedFits(file, offset, |a.mem|, k);
    assert k * SUB_BLOCK_SIZE / SUB_BLOCK_SIZE == k;
    assert AllSlots(k) + {k} == AllSlots(k + 1);
  }

  /** A non-empty chunk inside the file can be completed from served pieces if and only if it is a
      whole number of sub-blocks or ends where the file ends. */
  lemma CompletableIff(file: seq<byte>, offset: nat, mem: seq<byte>)
    requires |mem| > 0 && offset + |mem| <= |file|
    ensures CanComplete(file, offset, mem) <==> |mem| % SUB_BLOCK_SIZE == 0 || offset + |mem| == |file|
  {
    var n := Slots(|mem|, SUB_BLOCK_SIZE);
    if |mem| % SUB_BLOCK_SIZE == 0 || offset + |mem| == |file| {
      SlotInRange(|mem|, SUB_BLOCK_SIZE, 0);
      BeginsAreRequestable(|mem|, 0);
      InOrderFinishes(file, offset, Unstarted(mem), 0);
    } else {
      forall begins | Requestable(|mem|, begins) ensures !Feed(file, offset, Unstarted(mem), begins).1 {
        NeverFinishes(file, offset, Unstarted(mem), begins);
      }
    }
  }

  // ---------------------------------------------------------------- served pieces in the pipeline

  /** A served piece is one the pipeline expects: its slot's bytes of the published chunk, possibly
      followed by bytes of the next chunk. */
  lemma ServedPieceIsHonest(cfg: Config, content: seq<seq<byte>>, file: seq<byte>, offset: nat, c: nat, begin: nat,
                            peer: nat)
    requires ConfigOk(cfg) && Published(cfg, content) && c < |cfg.lens|
    requires offset + cfg.lens[c] <= |file| && content[c] == file[offset..offset + cfg.lens[c]]
    requires begin % SUB_BLOCK_SIZE == 0 && begin < cfg.lens[c]
    ensures var p := Piece(c, begin, Serve(file, offset, begin), peer);
            PieceOk(cfg, p) && HonestPiece(cfg, content, p)
  {
    var p := Piece(c, begin, Serve(file, offset, begin), peer);
    SlotInRange(cfg.lens[c], SUB_BLOCK_SIZE, begin);
    assert SlotOf(p) * SUB_BLOCK_SIZE == begin;
    assert PieceOk(cfg, p);
    SlotOfPiece(cfg, p);
    if Fits(cfg, p) {
      assert p.data == file[offset + begin..offset + begin + |p.data|];
      assert forall i :: 0 <= i < |p.data| ==> p.data[i] == file[offset..offset + cfg.lens[c]][begin + i];
    }
  }

  // ---------------------------------------------------------------- over whole runs

  /** Every piece is what its peer read out of the file. */
  ghost predicate ServedStep(file: seq<byte>, offsets: seq<nat>, step: Step) {
    step.Deliver? && step.chunk < |offsets| ==> step.data == Serve(file, offsets[step.chunk], step.begin)
  }

  ghost predicate ServedLog(file: seq<byte>, offsets: seq<nat>, log: seq<Piece>) {
    forall p | p in log :: p.chunk < |offsets| ==> p.data == Serve(file, offsets[p.chunk], p.begin)
  }

  /** The chunk is followed by other bytes and does not end on a sub-block boundary. */
  ghost predicate Ragged(cfg: Config, file: seq<byte>, offsets: seq<nat>, c: nat) {
    && c < |cfg.lens| == |offsets| && cfg.lens[c] > 0
    && cfg.lens[c] % SUB_BLOCK_SIZE != 0 && offsets[c] + cfg.lens[c] < |file|
  }

  ghost predicate TailOpen(cfg: Config, file: seq<byte>, offsets: seq<nat>, s: Sys, c: nat) {
    && PipeInv(cfg, s) && Ragged(cfg, file, offsets, c) && ServedLog(file, offsets, s.delivered)
    && LastSlot(cfg.lens[c]) !in s.asm[c].marked
  }

  /** The served tail never fits. */
  lemma TailNeverFits(cfg: Config, file: seq<byte>, offsets: seq<nat>, c: nat, p: Piece)
    requires Ragged(cfg, file, offsets, c) && p.chunk == c && PieceOk(cfg, p) && SlotOf(p) == LastSlot(cfg.lens[c])
    requires p.data == Serve(file, offsets[c], p.begin)
    ensures !Fits(cfg, p)
  {
    assert SUB_BLOCK_SIZE == 16384;
  }

  lemma TailStaysOpen(cfg: Config, file: seq<byte>, offsets: seq<nat>, s: Sys, step: Step, c: nat)
    requires TailOpen(cfg, file, offsets, s, c) && CanDo(cfg, s, step) && ServedStep(file, offsets, step)
    ensures TailOpen(cfg, file, offsets, Do(cfg, s, step), c)
  {
    StepKeeps(cfg, s, step);
    if step.Mark? { TailNotMarked(cfg, file, offsets, s, step.w, c); }
    MarksElsewhere(cfg, s, step, c);
  }

  lemma TailNotMarked(cfg: Config, file: seq<byte>, offsets: seq<nat>, s: Sys, w: nat, c: nat)
    requires TailOpen(cfg, file, offsets, s, c) && CanMark(s, w)
    ensures s.pcs[w].piece.chunk == c ==> SlotOf(s.pcs[w].piece) != LastSlot(cfg.lens[c])
  {
    assert WorkerOk(cfg, s, w);
    var p := s.pcs[w].piece;
    if p.chunk == c && SlotOf(p) == LastSlot(cfg.lens[c]) { TailNeverFits(cfg, file, offsets, c, p); }
  }

  /** Marks are made by workers only, one at a time. */
  lemma MarksElsewhere(cfg: Config, s: Sys, step: Step, c: nat)
    requires CanDo(cfg, s, step) && c < |s.asm|
    ensures var r := Do(cfg, s, step);
            && |r.asm| == |s.asm|
            && forall slot :: slot in r.asm[c].marked && slot !in s.asm[c].marked ==>
                 step.Mark? && s.pcs[step.w].piece.chunk == c && SlotOf(s.pcs[step.w].piece) == slot
  {
  }

  lemma FirstServed(cfg: Config, file: seq<byte>, offsets: seq<nat>, s: Sys, steps: seq<Step>, r: Sys)
    requires |steps| > 0 && Pipeline.Reaches(cfg, s, steps, r)
    requires forall i :: 0 <= i < |steps| ==> ServedStep(file, offsets, steps[i])
    ensures CanDo(cfg, s, steps[0]) && Pipeline.Reaches(cfg, Do(cfg, s, steps[0]), steps[1..], r)
    ensures ServedStep(file, offsets, steps[0])
    ensures forall i :: 0 <= i < |steps[1..]| ==> ServedStep(file, offsets, steps[1..][i])
  {
  }

  lemma {:induction false} TailStaysOpenOverRuns(cfg: Config, file: seq<byte>, offsets: seq<nat>, s: Sys,
                                                 steps: seq<Step>, r: Sys, c: nat)
    requires TailOpen(cfg, file, offsets, s, c) && Pipeline.Reaches(cfg, s, steps, r)
    requires forall i :: 0 <= i < |steps| ==> ServedStep(file, offsets, steps[i])
    ensures TailOpen(cfg, file, offsets, r, c)
    decreases |steps|
  {
    if |steps| > 0 {
      FirstServed(cfg, file, offsets, s, steps, r);
      TailStaysOpen(cfg, file, offsets, s, steps[0], c);
      TailStaysOpenOverRuns(cfg, file, offsets, Do(cfg, s, steps[0]), steps[1..], r, c);
    }
  }

  /** With peers that serve the file, a ragged chunk that is not the last one and was not on disk is
      never COMPLETE, and the download never "complete". */
  lemma RaggedChunkNeverCompletes(cfg: Config, file: seq<byte>, offsets: seq<nat>, s: Sys, localSpeed: nat,
                                  order: seq<nat>, bits: seq<bool>, steps: seq<Step>, r: Sys, c: nat)
    requires Started(cfg, s, localSpeed, order, bits) && Ragged(cfg, file, offsets, c) && !bits[c]
    requires Pipeline.Reaches(cfg, s, steps, r) && forall i :: 0 <= i < |steps| ==> ServedStep(file, offsets, steps[i])
    ensures c < |r.sched.chunks| && r.sched.chunks[c] != Complete && r.task != TaskComplete
  {
    StartHolds(cfg, s, localSpeed, order, bits);
    TailStaysOpenOverRuns(cfg, file, offsets, s, steps, r, c);
    assert ChunkOk(cfg, r, c);
    SlotInRange(cfg.lens[c], SUB_BLOCK_SIZE, cfg.lens[c] - 1);
    if r.passes[c] > 0 { AllMarkedWhenReported(cfg, r, c); }
  }

  // ---------------------------------------------------------------- the chunks the program makes

  lemma {:induction false} FixedBlocksFit(size: nat, block: nat, a: nat, k: nat)
    requires a <= size && block > 0 && block % SUB_BLOCK_SIZE == 0 && k < |FastCdc.FixedBlocks(size, block, a)|
    ensures var chunk := FastCdc.FixedBlocks(size, block, a)[k];
            && 0 < chunk.length && chunk.offset + chunk.length <= size
            && (chunk.length % SUB_BLOCK_SIZE == 0 || chunk.offset + chunk.length == size)
    decreases k
  {
    if a + block < size && k > 0 { FixedBlocksFit(size, block, a + block, k - 1); }
  }

  /** Every chunk of the program's own chunking can be completed, with a maximum that is a multiple of
      16384 and an average from 2048 on, as the defaults are. */
  lemma DefaultChunksComplete(cdc: FastCdc.CdcConfig, file: seq<byte>, k: nat, mem: seq<byte>)
    requires cdc.avgSize >= 2048 && cdc.maxSize > 0 && cdc.maxSize % SUB_BLOCK_SIZE == 0
    requires k < |GearTable.DefaultChunks(cdc, file)| && |mem| == GearTable.DefaultChunks(cdc, file)[k].length
    ensures CanComplete(file, GearTable.DefaultChunks(cdc, file)[k].offset, mem)
  {
    GearTable.DefaultScanIsFixedBlocks(cdc, file);
    FixedBlocksFit(|file|, cdc.maxSize, 0, k);
    CompletableIff(file, GearTable.DefaultChunks(cdc, file)[k].offset, mem);
  }
}
