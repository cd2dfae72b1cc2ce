/** What the workers leave in the mapped file. */
module PipelineMemory {
  import opened Counting
  import opened Assembly
  import opened Pipeline
  import opened PipelineInvariant
  import opened PipelineRuns

  // ---------------------------------------------------------------- slots as byte ranges

  function SlotBytes(mem: seq<byte>, slot: nat): seq<byte>
    requires slot < Slots(|mem|, SUB_BLOCK_SIZE)
  {
    SlotStartsInside(|mem|, SUB_BLOCK_SIZE, slot);
    mem[slot * SUB_BLOCK_SIZE..slot * SUB_BLOCK_SIZE + SlotLength(|mem|, SUB_BLOCK_SIZE, slot)]
  }

  lemma WriteInSlot(mem: seq<byte>, slot: nat, k: nat, b: byte)
    requires slot < Slots(|mem|, SUB_BLOCK_SIZE) && k < SlotLength(|mem|, SUB_BLOCK_SIZE, slot)
    ensures slot * SUB_BLOCK_SIZE + k < |mem|
    ensures SlotBytes(mem[slot * SUB_BLOCK_SIZE + k := b], slot) == SlotBytes(mem, slot)[k := b]
    ensures forall other :: 0 <= other < Slots(|mem|, SUB_BLOCK_SIZE) && other != slot ==>
              SlotBytes(mem[slot * SUB_BLOCK_SIZE + k := b], other) == SlotBytes(mem, other)
  {
    forall other | 0 <= other < Slots(|mem|, SUB_BLOCK_SIZE) && other != slot
      ensures SlotBytes(mem[slot * SUB_BLOCK_SIZE + k := b], other) == SlotBytes(mem, other)
    {
      SlotStartsInside(|mem|, SUB_BLOCK_SIZE, other);
    }
  }

  lemma SameBySlots(a: seq<byte>, b: seq<byte>)
    requires |a| == |b|
    requires forall slot :: 0 <= slot < Slots(|a|, SUB_BLOCK_SIZE) ==> SlotBytes(a, slot) == SlotBytes(b, slot)
    ensures a == b
  {
    forall i | 0 <= i < |a| ensures a[i] == b[i] {
      var slot := i / SUB_BLOCK_SIZE;
      SlotInRange(|a|, SUB_BLOCK_SIZE, i);
      var k := i - slot * SUB_BLOCK_SIZE;
      assert SlotBytes(a, slot)[k] == a[i] && SlotBytes(b, slot)[k] == b[i];
    }
  }

  // ---------------------------------------------------------------- slot contents

  /** From byte k on, the slot's bytes are those of some delivered piece. */
  ghost predicate Held(delivered: seq<Piece>, c: nat, slot: nat, bytes: seq<byte>, k: nat) {
    exists i :: 0 <= i < |delivered| && HeldBy(delivered[i], c, slot, bytes, k)
  }

  ghost predicate HeldBy(p: Piece, c: nat, slot: nat, bytes: seq<byte>, k: nat) {
    p.chunk == c && SlotOf(p) == slot && |p.data| == |bytes| && k <= |bytes| && bytes[k..] == p.data[k..]
  }

  predicate CopyingSlot(w: Worker, c: nat, slot: nat) {
    w.Copying? && w.piece.chunk == c && SlotOf(w.piece) == slot
  }

  /** A marked slot holds a delivered piece; while its worker copies another one over it, the bytes
      copied so far are the new piece's and the rest still the old one's. */
  ghost predicate SlotSound(cfg: Config, s: Sys, c: nat, slot: nat)
    requires Shape(cfg, s) && c < |cfg.lens| && slot < SlotCount(cfg, c)
  {
    var bytes, w := SlotBytes(s.asm[c].mem, slot), s.pcs[Route(cfg, c, slot)];
    if CopyingSlot(w, c, slot)
    then && w.k <= |bytes| == |w.piece.data| && bytes[..w.k] == w.piece.data[..w.k]
         && (slot in s.asm[c].marked ==> Held(s.delivered, c, slot, bytes, w.k))
    else slot in s.asm[c].marked ==> Held(s.delivered, c, slot, bytes, 0)
  }

  ghost predicate MemInv(cfg: Config, s: Sys)
    requires Shape(cfg, s)
  {
    forall c, slot :: 0 <= c < |cfg.lens| && 0 <= slot < SlotCount(cfg, c) ==> SlotSound(cfg, s, c, slot)
  }

  lemma HeldStays(a: seq<Piece>, b: seq<Piece>, c: nat, slot: nat, bytes: seq<byte>, k: nat)
    requires a <= b && Held(a, c, slot, bytes, k)
    ensures Held(b, c, slot, bytes, k)
  {
    var i :| 0 <= i < |a| && HeldBy(a[i], c, slot, bytes, k);
    assert b[i] == a[i];
  }

  /** Steps that copy nothing and mark nothing. */
  lemma QuietSlot(cfg: Config, s: Sys, r: Sys, c: nat, slot: nat)
    requires Shape(cfg, s) && Shape(cfg, r) && c < |cfg.lens| && slot < SlotCount(cfg, c) && SlotSound(cfg, s, c, slot)
    requires r.asm[c].mem == s.asm[c].mem && r.asm[c].marked == s.asm[c].marked && s.delivered <= r.delivered
    requires var w := Route(cfg, c, slot);
             s.pcs[w] == r.pcs[w] || (!CopyingSlot(s.pcs[w], c, slot) && !CopyingSlot(r.pcs[w], c, slot))
    ensures SlotSound(cfg, r, c, slot)
  {
    var bytes := SlotBytes(s.asm[c].mem, slot);
    if slot in s.asm[c].marked {
      var k := if CopyingSlot(s.pcs[Route(cfg, c, slot)], c, slot) then s.pcs[Route(cfg, c, slot)].k else 0;
      HeldStays(s.delivered, r.delivered, c, slot, bytes, k);
    }
  }

  lemma TakeSlot(cfg: Config, s: Sys, w: nat, c: nat, slot: nat)
    requires PipeInv(cfg, s) && CanTake(cfg, s, w) && c < |cfg.lens| && slot < SlotCount(cfg, c)
    requires SlotSound(cfg, s, c, slot)
    requires Shape(cfg, DoTake(cfg, s, w)) && WorkerOk(cfg, DoTake(cfg, s, w), w)
    ensures SlotSound(cfg, DoTake(cfg, s, w), c, slot)
  {
    var r, p := DoTake(cfg, s, w), s.queues[w][0];
    if CopyingSlot(r.pcs[w], c, slot) && r.pcs[w] != s.pcs[w] {
      SlotOfPiece(cfg, p);
    } else {
      QuietSlot(cfg, s, r, c, slot);
    }
  }

  lemma HeldAfterByte(delivered: seq<Piece>, c: nat, slot: nat, bytes: seq<byte>, k: nat, b: byte)
    requires k < |bytes| && Held(delivered, c, slot, bytes, k)
    ensures Held(delivered, c, slot, bytes[k := b], k + 1)
  {
    var i :| 0 <= i < |delivered| && HeldBy(delivered[i], c, slot, bytes, k);
    assert bytes[k := b][k + 1..] == bytes[k..][1..];
    assert delivered[i].data[k + 1..] == delivered[i].data[k..][1..];
    assert HeldBy(delivered[i], c, slot, bytes[k := b], k + 1);
  }

  lemma CopySlot(cfg: Config, s: Sys, w: nat, c: nat, slot: nat)
    requires PipeInv(cfg, s) && CanCopy(s, w) && c < |cfg.lens| && slot < SlotCount(cfg, c)
    requires SlotSound(cfg, s, c, slot)
    requires Shape(cfg, DoCopy(s, w))
    ensures SlotSound(cfg, DoCopy(s, w), c, slot)
  {
    var r, p, k := DoCopy(s, w), s.pcs[w].piece, s.pcs[w].k;
    assert WorkerOk(cfg, s, w);
    SlotOfPiece(cfg, p);
    WriteInSlot(s.asm[p.chunk].mem, SlotOf(p), k, p.data[k]);
    var bytes, bytes' := SlotBytes(s.asm[c].mem, slot), SlotBytes(r.asm[c].mem, slot);
    if p.chunk == c && SlotOf(p) == slot {
      assert bytes' == bytes[k := p.data[k]];
      if slot in s.asm[c].marked { HeldAfterByte(s.delivered, c, slot, bytes, k, p.data[k]); }
    } else {
      assert bytes' == bytes;
    }
  }

  lemma MarkSlot(cfg: Config, s: Sys, w: nat, c: nat, slot: nat)
    requires PipeInv(cfg, s) && CanMark(s, w) && c < |cfg.lens| && slot < SlotCount(cfg, c)
    requires SlotSound(cfg, s, c, slot)
    requires Shape(cfg, DoMark(s, w))
    ensures SlotSound(cfg, DoMark(s, w), c, slot)
  {
    var r, p := DoMark(s, w), s.pcs[w].piece;
    assert WorkerOk(cfg, s, w);
    if p.chunk == c && SlotOf(p) == slot {
      var bytes := SlotBytes(s.asm[c].mem, slot);
      assert bytes == bytes[..|bytes|] == p.data[..|bytes|] == p.data;
      var i :| 0 <= i < |s.delivered| && s.delivered[i] == p;
      assert HeldBy(s.delivered[i], c, slot, bytes, 0);
    } else if Route(cfg, c, slot) != w {
      QuietSlot(cfg, s, r.(asm := r.asm[p.chunk := s.asm[p.chunk]]), c, slot);
    }
  }

  lemma OtherSlot(cfg: Config, s: Sys, step: Step, c: nat, slot: nat)
    requires PipeInv(cfg, s) && CanDo(cfg, s, step) && Shape(cfg, Do(cfg, s, step))
    requires c < |cfg.lens| && slot < SlotCount(cfg, c) && SlotSound(cfg, s, c, slot)
    requires !step.Take? && !step.CopyByte? && !step.Mark?
    ensures SlotSound(cfg, Do(cfg, s, step), c, slot)
  {
    QuietSlot(cfg, s, Do(cfg, s, step), c, slot);
  }

  lemma SlotStep(cfg: Config, s: Sys, step: Step, c: nat, slot: nat)
    requires PipeInv(cfg, s) && CanDo(cfg, s, step) && PipeInv(cfg, Do(cfg, s, step))
    requires c < |cfg.lens| && slot < SlotCount(cfg, c) && SlotSound(cfg, s, c, slot)
    ensures SlotSound(cfg, Do(cfg, s, step), c, slot)
  {
    if step.Take? {
      TakeSlot(cfg, s, step.w, c, slot);
    } else if step.CopyByte? {
      CopySlot(cfg, s, step.w, c, slot);
    } else if step.Mark? {
      MarkSlot(cfg, s, step.w, c, slot);
    } else {
      OtherSlot(cfg, s, step, c, slot);
    }
  }

  lemma MemoryStep(cfg: Config, s: Sys, step: Step)
    requires PipeInv(cfg, s) && MemInv(cfg, s) && CanDo(cfg, s, step)
    ensures PipeInv(cfg, Do(cfg, s, step)) && MemInv(cfg, Do(cfg, s, step))
  {
    StepKeeps(cfg, s, step);
    var r := Do(cfg, s, step);
    forall c, slot | 0 <= c < |cfg.lens| && 0 <= slot < SlotCount(cfg, c) ensures SlotSound(cfg, r, c, slot) {
      SlotStep(cfg, s, step, c, slot);
    }
  }

  lemma {:induction false} MemoryRun(cfg: Config, s: Sys, steps: seq<Step>, r: Sys)
    requires PipeInv(cfg, s) && MemInv(cfg, s) && Pipeline.Reaches(cfg, s, steps, r)
    ensures PipeInv(cfg, r) && MemInv(cfg, r)
    decreases |steps|
  {
    if |steps| > 0 {
      MemoryStep(cfg, s, steps[0]);
      MemoryRun(cfg, Do(cfg, s, steps[0]), steps[1..], r);
    }
  }

  /** At the start of a download nothing is marked and nobody copies. */
  lemma StartMemory(cfg: Config, s: Sys, localSpeed: nat, order: seq<nat>, bits: seq<bool>)
    requires Started(cfg, s, localSpeed, order, bits)
    ensures PipeInv(cfg, s) && MemInv(cfg, s)
  {
    StartHolds(cfg, s, localSpeed, order, bits);
    forall c, slot | 0 <= c < |cfg.lens| && 0 <= slot < SlotCount(cfg, c) ensures SlotSound(cfg, s, c, slot) {
      assert s.pcs[Route(cfg, c, slot)] == Idle;
    }
  }

  /** r is a state of a download, whatever its peers delivered. */
  ghost predicate Reachable(cfg: Config, r: Sys) {
    exists s, localSpeed, order, bits, steps ::
      Started(cfg, s, localSpeed, order, bits) && Pipeline.Reaches(cfg, s, steps, r)
  }

  lemma ReachableIsSound(cfg: Config, r: Sys)
    requires Reachable(cfg, r)
    ensures PipeInv(cfg, r) && MemInv(cfg, r)
  {
    var s, localSpeed, order, bits, steps :|
      Started(cfg, s, localSpeed, order, bits) && Pipeline.Reaches(cfg, s, steps, r);
    StartMemory(cfg, s, localSpeed, order, bits);
    MemoryRun(cfg, s, steps, r);
  }

  // ---------------------------------------------------------------- main results

  /** Routing depends on chunk and slot only, so two workers never write the same byte. */
  lemma WorkersWriteApart(cfg: Config, s: Sys, w1: nat, w2: nat)
    requires Reachable(cfg, s) && w1 < w2 < |s.pcs| && s.pcs[w1].Copying? && s.pcs[w2].Copying?
    ensures var p1, p2 := s.pcs[w1].piece, s.pcs[w2].piece;
            p1.chunk != p2.chunk || p1.begin + |p1.data| <= p2.begin || p2.begin + |p2.data| <= p1.begin
  {
    ReachableIsSound(cfg, s);
    assert WorkerOk(cfg, s, w1) && WorkerOk(cfg, s, w2);
    var p1, p2 := s.pcs[w1].piece, s.pcs[w2].piece;
    SlotOfPiece(cfg, p1);
    SlotOfPiece(cfg, p2);
    if p1.chunk == p2.chunk { BlocksApart(SlotOf(p1), SlotOf(p2)); }
  }

  lemma BlocksApart(a: nat, b: nat)
    requires a != b
    ensures (a + 1) * SUB_BLOCK_SIZE <= b * SUB_BLOCK_SIZE || (b + 1) * SUB_BLOCK_SIZE <= a * SUB_BLOCK_SIZE
  {
  }

  /** When a worker marks a slot, the slot's bytes are exactly the piece it was handed. */
  lemma NothingTornAtMark(cfg: Config, s: Sys, w: nat)
    requires Reachable(cfg, s) && CanMark(s, w)
    ensures var p := s.pcs[w].piece;
            && p.chunk < |cfg.lens| && SlotOf(p) < SlotCount(cfg, p.chunk)
            && p.chunk < |s.asm| && SlotOf(p) < Slots(|s.asm[p.chunk].mem|, SUB_BLOCK_SIZE)
            && SlotBytes(s.asm[p.chunk].mem, SlotOf(p)) == p.data
  {
    ReachableIsSound(cfg, s);
    var p := s.pcs[w].piece;
    assert WorkerOk(cfg, s, w);
    SlotOfPiece(cfg, p);
    assert SlotSound(cfg, s, p.chunk, SlotOf(p));
    var bytes := SlotBytes(s.asm[p.chunk].mem, SlotOf(p));
    assert bytes == bytes[..|bytes|] == p.data[..|bytes|] == p.data;
  }

  /** When `on_piece` is about to return true, every slot of the chunk has been written: it holds a
      delivered piece, unless a duplicate is being copied over it right now. */
  lemma EverySlotWrittenAtFinish(cfg: Config, s: Sys, w: nat, slot: nat)
    requires Reachable(cfg, s) && CanCountDown(s, w) && s.asm[s.pcs[w].piece.chunk].pending == 1
    requires s.pcs[w].piece.chunk < |cfg.lens| && slot < SlotCount(cfg, s.pcs[w].piece.chunk)
    ensures var c := s.pcs[w].piece.chunk;
            && slot in s.asm[c].marked
            && cfg.workers > 0 && Route(cfg, c, slot) < |s.pcs| && slot < Slots(|s.asm[c].mem|, SUB_BLOCK_SIZE)
            && (!CopyingSlot(s.pcs[Route(cfg, c, slot)], c, slot) ==>
                  Held(s.delivered, c, slot, SlotBytes(s.asm[c].mem, slot), 0))
  {
    var c := s.pcs[w].piece.chunk;
    ReachableIsSound(cfg, s);
    assert ChunkOk(cfg, s, c) && SlotSound(cfg, s, c, slot);
    CountIfSome(s.pcs, w, IsFirst(c));
    FullWhenCounted(s.asm[c].marked, SlotCount(cfg, c));
  }

  // ---------------------------------------------------------------- one piece without interference

  /** Worker w's next step inside `on_piece`, if it has one. */
  ghost function WorkerTurn(cfg: Config, s: Sys, w: nat): Sys {
    if CanTake(cfg, s, w) then DoTake(cfg, s, w)
    else if CanCopy(s, w) then DoCopy(s, w)
    else if CanMark(s, w) then DoMark(s, w)
    else if CanCountDown(s, w) then DoCountDown(s, w)
    else s
  }

  ghost function WorkerTurns(cfg: Config, s: Sys, w: nat, n: nat): Sys
    decreases n
  {
    if n == 0 then s else WorkerTurns(cfg, WorkerTurn(cfg, s, w), w, n - 1)
  }

  lemma TurnIsStep(cfg: Config, s: Sys, w: nat)
    ensures WorkerTurn(cfg, s, w) == s ||
            exists step :: CanDo(cfg, s, step) && Do(cfg, s, step) == WorkerTurn(cfg, s, w)
  {
    if CanTake(cfg, s, w) {
      assert CanDo(cfg, s, Take(w)) && Do(cfg, s, Take(w)) == WorkerTurn(cfg, s, w);
    } else if CanCopy(s, w) {
      assert CanDo(cfg, s, CopyByte(w)) && Do(cfg, s, CopyByte(w)) == WorkerTurn(cfg, s, w);
    } else if CanMark(s, w) {
      assert CanDo(cfg, s, Mark(w)) && Do(cfg, s, Mark(w)) == WorkerTurn(cfg, s, w);
    } else if CanCountDown(s, w) {
      assert CanDo(cfg, s, CountDown(w)) && Do(cfg, s, CountDown(w)) == WorkerTurn(cfg, s, w);
    }
  }

  /** The state in which worker w has copied the first k bytes of p. */
  ghost function CopiedTo(s: Sys, w: nat, p: Piece, k: nat): Sys
    requires w < |s.pcs| && p.chunk < |s.asm| && k <= |p.data| && p.begin + |p.data| <= |s.asm[p.chunk].mem|
  {
    var a := s.asm[p.chunk];
    s.(asm := s.asm[p.chunk := a.(mem := Overwrite(a.mem, p.begin, p.data[..k]))], pcs := s.pcs[w := Copying(p, k)])
  }

  lemma CopyTurn(cfg: Config, s: Sys, w: nat, p: Piece, k: nat)
    requires w < |s.pcs| && p.chunk < |s.asm| && k < |p.data| && p.begin + |p.data| <= |s.asm[p.chunk].mem|
    ensures WorkerTurn(cfg, CopiedTo(s, w, p, k), w) == CopiedTo(s, w, p, k + 1)
  {
    var mem := s.asm[p.chunk].mem;
    assert Overwrite(mem, p.begin, p.data[..k])[p.begin + k := p.data[k]] == Overwrite(mem, p.begin, p.data[..k + 1]);
  }

  lemma {:induction false} CopyAlone(cfg: Config, s: Sys, w: nat, p: Piece, k: nat, n: nat)
    requires w < |s.pcs| && p.chunk < |s.asm| && k <= |p.data| && p.begin + |p.data| <= |s.asm[p.chunk].mem|
    ensures WorkerTurns(cfg, CopiedTo(s, w, p, k), w, |p.data| - k + n) ==
            WorkerTurns(cfg, CopiedTo(s, w, p, |p.data|), w, n)
    decreases |p.data| - k
  {
    if k < |p.data| {
      CopyTurn(cfg, s, w, p, k);
      CopyAlone(cfg, s, w, p, k + 1, n);
    }
  }

  ghost function After(s: Sys, w: nat, p: Piece, a: Asm, complete: bool): Sys
    requires w < |s.pcs| && p.chunk < |s.asm|
  {
    s.(asm := s.asm[p.chunk := a], pcs := s.pcs[w := if complete then Last(p) else Idle])
  }

  lemma StoreAlone(cfg: Config, s: Sys, w: nat, p: Piece)
    requires w < |s.pcs| && p.chunk < |s.asm| && p.begin + |p.data| <= |s.asm[p.chunk].mem|
    ensures var (a, complete) := Stored(s.asm[p.chunk], SlotOf(p), p.begin, p.data);
            WorkerTurns(cfg, CopiedTo(s, w, p, |p.data|), w, if SlotOf(p) in s.asm[p.chunk].marked then 1 else 2) ==
            After(s, w, p, a, complete)
  {
    var (a, complete) := Stored(s.asm[p.chunk], SlotOf(p), p.begin, p.data);
    var m := CopiedTo(s, w, p, |p.data|);
    assert p.data[..|p.data|] == p.data;
    var m1 := WorkerTurn(cfg, m, w);
    assert m1 == DoMark(m, w);
    if SlotOf(p) in s.asm[p.chunk].marked {
      assert s.asm[p.chunk].marked + {SlotOf(p)} == s.asm[p.chunk].marked;
      assert WorkerTurns(cfg, m, w, 1) == WorkerTurns(cfg, m1, w, 0) == m1;
    } else {
      assert WorkerTurn(cfg, m1, w) == DoCountDown(m1, w) == After(s, w, p, a, complete);
      assert WorkerTurns(cfg, m, w, 2) == WorkerTurns(cfg, m1, w, 1) == WorkerTurns(cfg, WorkerTurn(cfg, m1, w), w, 0);
    }
  }

  /** A worker left alone with a piece does to the chunk what `on_piece` does in one call, and goes on
      to report exactly when that call returns true. */
  lemma WorkerAloneIsReceive(cfg: Config, s: Sys, w: nat)
    requires Shape(cfg, s) && CanTake(cfg, s, w)
    ensures var p := s.queues[w][0];
            var (a, complete) := Receive(s.asm[p.chunk], SUB_BLOCK_SIZE, p.begin, p.data);
            exists n :: WorkerTurns(cfg, s, w, n) ==
              After(s.(queues := s.queues[w := s.queues[w][1..]]), w, p, a, complete)
  {
    var p, s1 := s.queues[w][0], DoTake(cfg, s, w);
    var (a, complete) := Receive(s.asm[p.chunk], SUB_BLOCK_SIZE, p.begin, p.data);
    if Fits(cfg, p) {
      assert Overwrite(s.asm[p.chunk].mem, p.begin, p.data[..0]) == s.asm[p.chunk].mem;
      assert s1 == CopiedTo(s1, w, p, 0);
      var n := if SlotOf(p) in s.asm[p.chunk].marked then 1 else 2;
      CopyAlone(cfg, s1, w, p, 0, n);
      StoreAlone(cfg, s1, w, p);
      assert WorkerTurns(cfg, s, w, 1 + |p.data| + n) == WorkerTurns(cfg, s1, w, |p.data| + n);
    } else {
      assert WorkerTurns(cfg, s, w, 1) == WorkerTurns(cfg, s1, w, 0) == s1;
    }
  }
}
