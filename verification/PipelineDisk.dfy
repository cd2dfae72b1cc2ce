/** The chunks' memories are views of one flat file: what a download leaves in that file. */
module PipelineDisk {
  import opened Counting
  import opened Assembly
  import opened Pipeline
  import opened PipelineInvariant
  import opened PipelineRuns
  import opened PipelineHonest
  import opened SegmentIo

  // ---------------------------------------------------------------- a base for every chunk

  /** The addresses from bases[c] on show chunk c of the file, for every chunk. */
  ghost predicate BasesShow(views: seq<View>, bases: seq<nat>, offsets: seq<nat>, lens: seq<nat>) {
    && |bases| <= |offsets| == |lens|
    && forall c :: 0 <= c < |bases| ==> ShowsRange(views, bases[c], offsets[c], lens[c])
  }

  /** Addresses that mmap may hand out from now on. */
  ghost predicate Rooms(views: seq<View>, addresses: seq<Option<nat>>, k: nat, room: nat) {
    && (forall i :: k <= i < |addresses| && addresses[i].Some? ==> Unused(views, addresses[i].value, room))
    && (forall i, j :: k <= i < j < |addresses| && addresses[i].Some? && addresses[j].Some? ==>
          addresses[i].value + room <= addresses[j].value || addresses[j].value + room <= addresses[i].value)
  }

  lemma RoomsLeft(before: seq<View>, after: seq<View>, addresses: seq<Option<nat>>, k: nat, room: nat)
    requires k < |addresses| && Rooms(before, addresses, k, room) && OneViewMore(before, after, addresses[k], room)
    ensures Rooms(after, addresses, k + 1, room)
  {
  }

  lemma BasesStay(before: seq<View>, after: seq<View>, bases: seq<nat>, offsets: seq<nat>, lens: seq<nat>,
                  address: Option<nat>, room: nat)
    requires BasesShow(before, bases, offsets, lens) && OneViewMore(before, after, address, room)
    ensures BasesShow(after, bases, offsets, lens)
  {
    forall c | 0 <= c < |bases| ensures ShowsRange(after, bases[c], offsets[c], lens[c]) {
      BaseStaysValid(before, after, bases[c], offsets[c], lens[c]);
    }
  }

  /** The loop that gives every assembler its memory, or gives up: all bases show their own chunks at
      once, and with room for the maps it gives up only over a chunk the writer does not accept. */
  method MapChunks(writer: SegmentWriter, offsets: seq<nat>, lens: seq<nat>, addresses: seq<Option<nat>>)
    returns (bases: Option<seq<nat>>)
    requires writer.Valid() && |offsets| == |lens| == |addresses|
    requires Rooms(writer.views, addresses, 0, writer.segmentSize + MAX_CHUNK_SIZE)
    modifies writer
    ensures writer.Valid() && writer.fileSize == old(writer.fileSize)
    ensures bases.Some? ==> |bases.value| == |lens| && BasesShow(writer.views, bases.value, offsets, lens)
    ensures bases.Some? ==> forall c :: 0 <= c < |lens| ==> offsets[c] + lens[c] <= writer.fileSize
    ensures (forall c :: 0 <= c < |lens| ==> old(writer.Accepts(offsets[c], lens[c])) && addresses[c].Some?) ==>
              bases.Some?
  {
    var found: seq<nat> := [];
    for i := 0 to |lens|
      invariant writer.Valid() && writer.isOpen == old(writer.isOpen)
      invariant writer.fileSize == old(writer.fileSize) && writer.segmentSize == old(writer.segmentSize)
      invariant |found| == i && BasesShow(writer.views, found, offsets, lens)
      invariant forall c :: 0 <= c < i ==> offsets[c] + lens[c] <= writer.fileSize
      invariant Rooms(writer.views, addresses, i, writer.segmentSize + MAX_CHUNK_SIZE)
    {
      ghost var before := writer.views;
      var base := writer.GetChunkBase(offsets[i], lens[i], addresses[i]);
      if base.None? {
        return None;
      }
      RoomsLeft(before, writer.views, addresses, i, writer.segmentSize + MAX_CHUNK_SIZE);
      BasesStay(before, writer.views, found, offsets, lens, addresses[i], writer.segmentSize + MAX_CHUNK_SIZE);
      found := found + [base.value];
    }
    return Some(found);
  }

  // ---------------------------------------------------------------- stores reach the file

  /** Where the chunks' bytes are: in the file one after another, and in the address space. */
  datatype Layout = Layout(views: seq<View>, bases: seq<nat>, offsets: seq<nat>)

  ghost predicate OneAfterAnother(offsets: seq<nat>, lens: seq<nat>, size: nat) {
    && |offsets| == |lens|
    && (forall c :: 0 <= c < |lens| ==> offsets[c] + lens[c] <= size)
    && (forall c, d :: 0 <= c < d < |lens| ==> offsets[c] + lens[c] <= offsets[d])
    && (forall p :: 0 <= p < size ==> InSomeChunk(offsets, lens, p))
  }

  ghost predicate InSomeChunk(offsets: seq<nat>, lens: seq<nat>, p: nat)
    requires |offsets| == |lens|
  {
    exists c :: 0 <= c < |lens| && Within(offsets, lens, c, p)
  }

  predicate Within(offsets: seq<nat>, lens: seq<nat>, c: nat, p: nat)
    requires c < |offsets| == |lens|
  {
    offsets[c] <= p < offsets[c] + lens[c]
  }

  ghost predicate LayoutOk(cfg: Config, l: Layout, size: nat) {
    && AddressesApart(l.views) && |l.bases| == |cfg.lens| && BasesShow(l.views, l.bases, l.offsets, cfg.lens)
    && OneAfterAnother(l.offsets, cfg.lens, size)
  }

  /** Every chunk's memory reads as its part of the file. */
  ghost predicate Mirrors(cfg: Config, l: Layout, s: Sys, disk: seq<byte>) {
    && |s.asm| == |cfg.lens| == |l.offsets|
    && forall c :: 0 <= c < |cfg.lens| ==> l.offsets[c] + cfg.lens[c] <= |disk| && MemoryIs(cfg, l, s, disk, c)
  }

  ghost predicate MemoryIs(cfg: Config, l: Layout, s: Sys, disk: seq<byte>, c: nat)
    requires c < |s.asm| && c < |cfg.lens| && c < |l.offsets| && l.offsets[c] + cfg.lens[c] <= |disk|
  {
    s.asm[c].mem == disk[l.offsets[c]..l.offsets[c] + cfg.lens[c]]
  }

  /** The one step that writes to the file: a worker stores a byte at its chunk's base. */
  ghost predicate DiskStep(l: Layout, s: Sys, step: Step, disk: seq<byte>, disk': seq<byte>) {
    if step.CopyByte? && CanCopy(s, step.w) && s.pcs[step.w].piece.chunk < |l.bases| then
      var p, k := s.pcs[step.w].piece, s.pcs[step.w].k;
      Stores(l.views, disk, l.bases[p.chunk] + (p.begin + k), p.data[k], disk')
    else disk' == disk
  }

  lemma CopyMirrors(cfg: Config, l: Layout, s: Sys, w: nat, disk: seq<byte>, disk': seq<byte>)
    requires Shape(cfg, s) && LayoutOk(cfg, l, |disk|) && Mirrors(cfg, l, s, disk)
    requires CanCopy(s, w) && DiskStep(l, s, CopyByte(w), disk, disk')
    ensures |disk'| == |disk| && Mirrors(cfg, l, DoCopy(s, w), disk')
  {
    var p, k := s.pcs[w].piece, s.pcs[w].k;
    var c0, at := p.chunk, p.begin + k;
    StoreHits(l.views, disk, l.bases[c0], l.offsets[c0], cfg.lens[c0], at, p.data[k], disk');
    forall c | 0 <= c < |cfg.lens| ensures MemoryIs(cfg, l, DoCopy(s, w), disk', c) {
      assert MemoryIs(cfg, l, s, disk, c);
      if c == c0 {
        WriteInRange(disk, l.offsets[c], cfg.lens[c], at, p.data[k]);
      } else {
        WriteElsewhere(disk, l.offsets[c0] + at, l.offsets[c], cfg.lens[c], p.data[k]);
      }
    }
  }

  lemma WriteInRange(disk: seq<byte>, offset: nat, size: nat, at: nat, b: byte)
    requires offset + size <= |disk| && at < size
    ensures disk[offset + at := b][offset..offset + size] == disk[offset..offset + size][at := b]
  {
  }

  lemma WriteElsewhere(disk: seq<byte>, p: nat, offset: nat, size: nat, b: byte)
    requires p < |disk| && offset + size <= |disk| && (p < offset || offset + size <= p)
    ensures disk[p := b][offset..offset + size] == disk[offset..offset + size]
  {
  }

  lemma StepMirrors(cfg: Config, l: Layout, s: Sys, step: Step, disk: seq<byte>, disk': seq<byte>)
    requires Shape(cfg, s) && LayoutOk(cfg, l, |disk|) && Mirrors(cfg, l, s, disk)
    requires CanDo(cfg, s, step) && DiskStep(l, s, step, disk, disk')
    ensures |disk'| == |disk| && Mirrors(cfg, l, Do(cfg, s, step), disk')
  {
    if step.CopyByte? {
      CopyMirrors(cfg, l, s, step.w, disk, disk');
    } else {
      MemoryStays(cfg, s, step);
      SameMemories(cfg, l, s, Do(cfg, s, step), disk);
    }
  }

  lemma MemoryStays(cfg: Config, s: Sys, step: Step)
    requires CanDo(cfg, s, step) && !step.CopyByte?
    ensures |Do(cfg, s, step).asm| == |s.asm|
    ensures forall c :: 0 <= c < |s.asm| ==> Do(cfg, s, step).asm[c].mem == s.asm[c].mem
  {
  }

  lemma SameMemories(cfg: Config, l: Layout, s: Sys, r: Sys, disk: seq<byte>)
    requires Mirrors(cfg, l, s, disk) && |r.asm| == |s.asm|
    requires forall c :: 0 <= c < |s.asm| ==> r.asm[c].mem == s.asm[c].mem
    ensures Mirrors(cfg, l, r, disk)
  {
    forall c | 0 <= c < |cfg.lens| ensures MemoryIs(cfg, l, r, disk, c) { assert MemoryIs(cfg, l, s, disk, c); }
  }

  // ---------------------------------------------------------------- whole runs

  /** The steps lead from s to r while the file goes through the given contents. */
  ghost predicate DiskRun(cfg: Config, l: Layout, s: Sys, steps: seq<Step>, disks: seq<seq<byte>>, r: Sys)
    decreases |steps|
  {
    && |disks| == |steps| + 1
    && if |steps| == 0 then r == s
       else CanDo(cfg, s, steps[0]) && DiskStep(l, s, steps[0], disks[0], disks[1])
            && DiskRun(cfg, l, Do(cfg, s, steps[0]), steps[1..], disks[1..], r)
  }

  lemma {:induction false} RunMirrors(cfg: Config, l: Layout, s: Sys, steps: seq<Step>, disks: seq<seq<byte>>, r: Sys)
    requires PipeInv(cfg, s) && DiskRun(cfg, l, s, steps, disks, r)
    requires LayoutOk(cfg, l, |disks[0]|) && Mirrors(cfg, l, s, disks[0])
    ensures Pipeline.Reaches(cfg, s, steps, r)
    ensures |disks[|steps|]| == |disks[0]| && Mirrors(cfg, l, r, disks[|steps|])
    decreases |steps|
  {
    if |steps| > 0 {
      StepMirrors(cfg, l, s, steps[0], disks[0], disks[1]);
      StepKeeps(cfg, s, steps[0]);
      RunMirrors(cfg, l, Do(cfg, s, steps[0]), steps[1..], disks[1..], r);
    }
  }

  /** Files of one size that agree on every chunk are equal. */
  lemma ChunksMakeTheFile(offsets: seq<nat>, lens: seq<nat>, a: seq<byte>, b: seq<byte>)
    requires |a| == |b| && OneAfterAnother(offsets, lens, |a|)
    requires forall c :: 0 <= c < |lens| ==> a[offsets[c]..offsets[c] + lens[c]] == b[offsets[c]..offsets[c] + lens[c]]
    ensures a == b
  {
    forall p | 0 <= p < |a| ensures a[p] == b[p] {
      assert InSomeChunk(offsets, lens, p);
      var c :| 0 <= c < |lens| && Within(offsets, lens, c, p);
      assert a[p] == a[offsets[c]..offsets[c] + lens[c]][p - offsets[c]];
      assert b[p] == b[offsets[c]..offsets[c] + lens[c]][p - offsets[c]];
    }
  }

  /** The file on disk, written byte by byte by all workers through their chunks' bases, is the
      published file once the download is "complete", over every run in which peers serve the published
      bytes and the restored chunks were intact. */
  lemma CompleteDownloadIsOnDisk(cfg: Config, l: Layout, content: seq<seq<byte>>, file: seq<byte>, s: Sys,
                                 localSpeed: nat,
                                 order: seq<nat>, bits: seq<bool>, steps: seq<Step>, disks: seq<seq<byte>>, r: Sys)
    requires Started(cfg, s, localSpeed, order, bits) && Published(cfg, content)
    requires DiskRun(cfg, l, s, steps, disks, r) && forall i :: 0 <= i < |steps| ==> HonestStep(cfg, content, steps[i])
    requires |disks[0]| == |file| && LayoutOk(cfg, l, |file|) && Mirrors(cfg, l, s, disks[0])
    requires forall c :: 0 <= c < |cfg.lens| ==> content[c] == file[l.offsets[c]..l.offsets[c] + cfg.lens[c]]
    requires forall c :: 0 <= c < |cfg.lens| && bits[c] ==> s.asm[c].mem == content[c]
    ensures r.task == TaskComplete ==> disks[|steps|] == file
  {
    StartHolds(cfg, s, localSpeed, order, bits);
    RunMirrors(cfg, l, s, steps, disks, r);
    HonestRunsDeliverTheFile(cfg, content, s, localSpeed, order, bits, steps, r);
    if r.task == TaskComplete { MemoriesMakeTheFile(cfg, l, content, file, r, disks[|steps|]); }
  }

  lemma MemoriesMakeTheFile(cfg: Config, l: Layout, content: seq<seq<byte>>, file: seq<byte>, r: Sys, disk: seq<byte>)
    requires |disk| == |file| && OneAfterAnother(l.offsets, cfg.lens, |file|) && Mirrors(cfg, l, r, disk)
    requires |content| == |cfg.lens| && forall c :: 0 <= c < |cfg.lens| ==> r.asm[c].mem == content[c]
    requires forall c :: 0 <= c < |cfg.lens| ==> content[c] == file[l.offsets[c]..l.offsets[c] + cfg.lens[c]]
    ensures disk == file
  {
    forall c | 0 <= c < |cfg.lens|
      ensures disk[l.offsets[c]..l.offsets[c] + cfg.lens[c]] == file[l.offsets[c]..l.offsets[c] + cfg.lens[c]]
    {
      assert MemoryIs(cfg, l, r, disk, c);
    }
    ChunksMakeTheFile(l.offsets, cfg.lens, disk, file);
  }
}
