/** With peers that serve the seed's own bytes, nothing fails verification and a finished download is
    the file that was published. */
module PipelineHonest {
  import opened Counting
  import opened Assembly
  import opened SchedulerModel
  import opened SchedulerInvariant
  import opened Pipeline
  import opened PipelineInvariant
  import opened PipelineRuns
  import opened PipelineMemory

  /** The published chunks: of the right lengths and hashing to the seed's entries. */
  ghost predicate Published(cfg: Config, content: seq<seq<byte>>) {
    && |content| == |cfg.lens| == |cfg.expected|
    && (forall c :: 0 <= c < |content| ==> |content[c]| == cfg.lens[c] && cfg.hash(content[c]) == cfg.expected[c])
  }

  /** Whatever part of the piece fits its slot is the published content. */
  ghost predicate HonestPiece(cfg: Config, content: seq<seq<byte>>, p: Piece) {
    p.chunk < |content| == |cfg.lens| && |content[p.chunk]| == cfg.lens[p.chunk] && PieceOk(cfg, p) && Fits(cfg, p) ==>
      SlotOf(p) < SlotCount(cfg, p.chunk) && p.data == SlotBytes(content[p.chunk], SlotOf(p))
  }

  ghost predicate HonestLog(cfg: Config, content: seq<seq<byte>>, s: Sys) {
    forall p | p in s.delivered :: HonestPiece(cfg, content, p)
  }

  lemma HeldIsHonest(cfg: Config, content: seq<seq<byte>>, s: Sys, c: nat, slot: nat, bytes: seq<byte>, k: nat)
    requires PipeInv(cfg, s) && Published(cfg, content) && HonestLog(cfg, content, s)
    requires c < |cfg.lens| && slot < SlotCount(cfg, c) && |bytes| == SlotLength(cfg.lens[c], SUB_BLOCK_SIZE, slot)
    requires Held(s.delivered, c, slot, bytes, k)
    ensures k <= |bytes| && bytes[k..] == SlotBytes(content[c], slot)[k..]
  {
    var i :| 0 <= i < |s.delivered| && HeldBy(s.delivered[i], c, slot, bytes, k);
    var p := s.delivered[i];
    assert PieceOk(cfg, p) && HonestPiece(cfg, content, p);
    SlotOfPiece(cfg, p);
    SlotStartsInside(cfg.lens[c], SUB_BLOCK_SIZE, slot);
  }

  lemma CopyingIsHonest(cfg: Config, content: seq<seq<byte>>, s: Sys, w: nat)
    requires PipeInv(cfg, s) && Published(cfg, content) && HonestLog(cfg, content, s)
    requires w < cfg.workers && s.pcs[w].Copying?
    ensures var p := s.pcs[w].piece;
            && p.chunk < |content| && SlotOf(p) < SlotCount(cfg, p.chunk) && SlotOf(p) * SUB_BLOCK_SIZE == p.begin
            && p.data == SlotBytes(content[p.chunk], SlotOf(p))
  {
    assert WorkerOk(cfg, s, w);
    var p := s.pcs[w].piece;
    assert PieceOk(cfg, p) && HonestPiece(cfg, content, p);
    SlotOfPiece(cfg, p);
  }

  lemma MarkedSlotIsPublished(cfg: Config, content: seq<seq<byte>>, s: Sys, c: nat, slot: nat)
    requires PipeInv(cfg, s) && MemInv(cfg, s) && Published(cfg, content) && HonestLog(cfg, content, s)
    requires c < |cfg.lens| && slot < SlotCount(cfg, c) && slot in s.asm[c].marked
    ensures SlotBytes(s.asm[c].mem, slot) == SlotBytes(content[c], slot)
  {
    assert SlotSound(cfg, s, c, slot);
    var bytes, w := SlotBytes(s.asm[c].mem, slot), Route(cfg, c, slot);
    if CopyingSlot(s.pcs[w], c, slot) {
      var k := s.pcs[w].k;
      CopyingIsHonest(cfg, content, s, w);
      HeldIsHonest(cfg, content, s, c, slot, bytes, k);
      assert bytes == bytes[..k] + bytes[k..];
      assert SlotBytes(content[c], slot) == SlotBytes(content[c], slot)[..k] + SlotBytes(content[c], slot)[k..];
    } else {
      HeldIsHonest(cfg, content, s, c, slot, bytes, 0);
    }
  }

  lemma MarkedChunkIsPublished(cfg: Config, content: seq<seq<byte>>, s: Sys, c: nat)
    requires PipeInv(cfg, s) && MemInv(cfg, s) && Published(cfg, content) && HonestLog(cfg, content, s)
    requires c < |cfg.lens| && Tokens(s, c) + s.passes[c] + s.fails[c] > 0
    ensures s.asm[c].mem == content[c]
  {
    assert ChunkOk(cfg, s, c);
    AllMarkedWhenReported(cfg, s, c);
    forall slot | 0 <= slot < SlotCount(cfg, c) ensures SlotBytes(s.asm[c].mem, slot) == SlotBytes(content[c], slot) {
      MarkedSlotIsPublished(cfg, content, s, c, slot);
    }
    SameBySlots(s.asm[c].mem, content[c]);
  }

  // ---------------------------------------------------------------- what honest runs keep

  ghost predicate AllGood(cfg: Config, content: seq<seq<byte>>, s: Sys)
    requires Shape(cfg, s) && |content| == |cfg.lens|
  {
    && (forall c :: 0 <= c < |cfg.lens| ==> s.fails[c] == 0)
    && (forall i :: 0 <= i < |s.results| ==> s.results[i].passed)
    && (forall v :: 0 <= v < |s.verifiers| && s.verifiers[v].Reading? ==> ReadsWell(content, s.verifiers[v]))
    && (forall c :: 0 <= c < |cfg.lens| && c in cfg.restored ==> s.asm[c].mem == content[c])
  }

  ghost predicate ReadsWell(content: seq<seq<byte>>, v: Verifier)
    requires v.Reading?
  {
    v.msg.chunk < |content| && |v.read| <= |content[v.msg.chunk]| && v.read == content[v.msg.chunk][..|v.read|]
  }

  lemma ReaderHasToken(s: Sys, v: nat)
    requires v < |s.verifiers| && s.verifiers[v].Reading?
    ensures Tokens(s, s.verifiers[v].msg.chunk) > 0
  {
    CountIfSome(s.verifiers, v, IsReading(s.verifiers[v].msg.chunk));
  }

  lemma CopyGood(cfg: Config, content: seq<seq<byte>>, s: Sys, w: nat)
    requires PipeInv(cfg, s) && Published(cfg, content) && HonestLog(cfg, content, s) && AllGood(cfg, content, s)
    requires CanCopy(s, w) && Shape(cfg, DoCopy(s, w))
    ensures AllGood(cfg, content, DoCopy(s, w))
  {
    CopyingIsHonest(cfg, content, s, w);
    var p, k := s.pcs[w].piece, s.pcs[w].k;
    assert SlotBytes(content[p.chunk], SlotOf(p))[k] == content[p.chunk][p.begin + k];
  }

  lemma ReadGood(cfg: Config, content: seq<seq<byte>>, s: Sys, v: nat)
    requires PipeInv(cfg, s) && MemInv(cfg, s) && Published(cfg, content) && HonestLog(cfg, content, s)
    requires AllGood(cfg, content, s) && CanRead(s, v)
    ensures AllGood(cfg, content, DoRead(s, v))
  {
    var c, read := s.verifiers[v].msg.chunk, s.verifiers[v].read;
    ReaderHasToken(s, v);
    MarkedChunkIsPublished(cfg, content, s, c);
    assert ReadsWell(content, s.verifiers[v]);
    assert content[c][..|read| + 1] == content[c][..|read|] + [content[c][|read|]];
  }

  lemma PostGood(cfg: Config, content: seq<seq<byte>>, s: Sys, v: nat)
    requires PipeInv(cfg, s) && Published(cfg, content) && AllGood(cfg, content, s) && CanPost(cfg, s, v)
    ensures AllGood(cfg, content, DoPost(cfg, s, v))
  {
    var c := s.verifiers[v].msg.chunk;
    assert ReadsWell(content, s.verifiers[v]);
    assert content[c][..cfg.lens[c]] == content[c];
  }

  lemma {:induction false} NoneFail(cfg: Config, d: Settlement, results: seq<VerifyResult>, k: nat)
    requires SettlementOk(cfg, d) && ResultsInRange(cfg, results) && k <= |results|
    requires forall i :: 0 <= i < |results| ==> results[i].passed
    ensures SettleFrom(cfg, d, results, k).fails == d.fails
    decreases |results| - k
  {
    if k < |results| { NoneFail(cfg, SettleOne(cfg, d, results[k]), results, k + 1); }
  }

  lemma SettleGood(cfg: Config, content: seq<seq<byte>>, s: Sys, now: nat, trackerDead: bool)
    requires PipeInv(cfg, s) && Published(cfg, content) && AllGood(cfg, content, s) && CanSettle(cfg, s)
    requires Shape(cfg, DoSettle(cfg, s, now, trackerDead))
    ensures AllGood(cfg, content, DoSettle(cfg, s, now, trackerDead))
  {
    TickKeeps(s.sched, now);
    NoneFail(cfg, Settlement(Tick(s.sched, now), [], s.bytesDone, s.passes, s.fails), s.results, 0);
  }

  ghost predicate HonestStep(cfg: Config, content: seq<seq<byte>>, step: Step) {
    step.Deliver? ==> HonestPiece(cfg, content, Piece(step.chunk, step.begin, step.data, step.peer))
  }

  ghost predicate GoodInv(cfg: Config, content: seq<seq<byte>>, s: Sys) {
    && PipeInv(cfg, s) && MemInv(cfg, s) && Published(cfg, content)
    && HonestLog(cfg, content, s) && AllGood(cfg, content, s)
  }

  lemma LogStaysHonest(cfg: Config, content: seq<seq<byte>>, s: Sys, step: Step)
    requires HonestLog(cfg, content, s) && CanDo(cfg, s, step) && HonestStep(cfg, content, step)
    ensures HonestLog(cfg, content, Do(cfg, s, step))
  {
  }

  lemma OtherGood(cfg: Config, content: seq<seq<byte>>, s: Sys, step: Step)
    requires Shape(cfg, s) && InRange(cfg, s) && |content| == |cfg.lens| && AllGood(cfg, content, s)
    requires CanDo(cfg, s, step) && Shape(cfg, Do(cfg, s, step))
    requires !step.CopyByte? && !step.ReadByte? && !step.Post? && !step.Settle?
    ensures AllGood(cfg, content, Do(cfg, s, step))
  {
  }

  lemma StaysGood(cfg: Config, content: seq<seq<byte>>, s: Sys, step: Step)
    requires GoodInv(cfg, content, s) && CanDo(cfg, s, step) && Shape(cfg, Do(cfg, s, step))
    ensures AllGood(cfg, content, Do(cfg, s, step))
  {
    if step.CopyByte? {
      CopyGood(cfg, content, s, step.w);
    } else if step.ReadByte? {
      ReadGood(cfg, content, s, step.v);
    } else if step.Post? {
      PostGood(cfg, content, s, step.v);
    } else if step.Settle? {
      SettleGood(cfg, content, s, step.now, step.trackerDead);
    } else {
      OtherGood(cfg, content, s, step);
    }
  }

  lemma StepGood(cfg: Config, content: seq<seq<byte>>, s: Sys, step: Step)
    requires GoodInv(cfg, content, s) && CanDo(cfg, s, step) && HonestStep(cfg, content, step)
    ensures GoodInv(cfg, content, Do(cfg, s, step))
  {
    MemoryStep(cfg, s, step);
    LogStaysHonest(cfg, content, s, step);
    StaysGood(cfg, content, s, step);
  }

  lemma FirstHonest(cfg: Config, content: seq<seq<byte>>, s: Sys, steps: seq<Step>, r: Sys)
    requires |steps| > 0 && Pipeline.Reaches(cfg, s, steps, r)
    requires forall i :: 0 <= i < |steps| ==> HonestStep(cfg, content, steps[i])
    ensures CanDo(cfg, s, steps[0]) && Pipeline.Reaches(cfg, Do(cfg, s, steps[0]), steps[1..], r)
    ensures HonestStep(cfg, content, steps[0])
    ensures forall i :: 0 <= i < |steps[1..]| ==> HonestStep(cfg, content, steps[1..][i])
  {
  }

  lemma {:induction false} RunGood(cfg: Config, content: seq<seq<byte>>, s: Sys, steps: seq<Step>, r: Sys)
    requires GoodInv(cfg, content, s) && Pipeline.Reaches(cfg, s, steps, r)
    requires forall i :: 0 <= i < |steps| ==> HonestStep(cfg, content, steps[i])
    ensures GoodInv(cfg, content, r)
    decreases |steps|
  {
    if |steps| > 0 {
      FirstHonest(cfg, content, s, steps, r);
      StepGood(cfg, content, s, steps[0]);
      RunGood(cfg, content, Do(cfg, s, steps[0]), steps[1..], r);
    }
  }

  lemma StartGood(cfg: Config, content: seq<seq<byte>>, s: Sys, localSpeed: nat, order: seq<nat>, bits: seq<bool>)
    requires Started(cfg, s, localSpeed, order, bits) && Published(cfg, content)
    requires forall c :: 0 <= c < |cfg.lens| && bits[c] ==> s.asm[c].mem == content[c]
    ensures GoodInv(cfg, content, s)
  {
    StartMemory(cfg, s, localSpeed, order, bits);
  }

  /** Over every run in which peers serve the published bytes and the restored chunks are intact, no
      chunk ever fails verification, and once the download is "complete" the mapped file is the published
      one, chunk by chunk. */
  lemma HonestRunsDeliverTheFile(cfg: Config, content: seq<seq<byte>>, s: Sys, localSpeed: nat, order: seq<nat>,
                                 bits: seq<bool>, steps: seq<Step>, r: Sys)
    requires Started(cfg, s, localSpeed, order, bits) && Published(cfg, content)
    requires forall c :: 0 <= c < |cfg.lens| && bits[c] ==> s.asm[c].mem == content[c]
    requires Pipeline.Reaches(cfg, s, steps, r)
    requires forall i :: 0 <= i < |steps| ==> HonestStep(cfg, content, steps[i])
    ensures |r.fails| == |r.asm| == |cfg.lens|
    ensures forall c :: 0 <= c < |cfg.lens| ==> r.fails[c] == 0
    ensures forall i :: 0 <= i < |r.results| ==> r.results[i].passed
    ensures r.task == TaskComplete ==> forall c :: 0 <= c < |cfg.lens| ==> r.asm[c].mem == content[c]
  {
    StartGood(cfg, content, s, localSpeed, order, bits);
    RunGood(cfg, content, s, steps, r);
    if r.task == TaskComplete {
      forall c | 0 <= c < |cfg.lens| ensures r.asm[c].mem == content[c] {
        assert ChunkOk(cfg, r, c);
        if r.passes[c] > 0 { MarkedChunkIsPublished(cfg, content, r, c); }
      }
    }
  }
}
