/** Content-defined chunking: where the rolling fingerprint cuts a buffer. */
module FastCdc {
  import opened Assembly

  datatype CdcConfig = CdcConfig(minSize: nat, avgSize: nat, maxSize: nat)

  /** What the scan works with: how a byte updates the fingerprint and which fingerprints cut. */
  datatype Params = Params(update: (byte, bv64) -> bv64, hit: bv64 -> bool, minSize: nat, maxSize: nat)

  // ---------------------------------------------------------------- rolling fingerprint

  function GearUpdate(g: bv64, fp: bv64): bv64 {
    (fp << 1) | ((fp >> 63) ^ g)
  }

  /** The fingerprint is zero under the mask. */
  predicate Under(fp: bv64, mask: bv64) { fp & mask == 0 }

  /** The table entry has a bit set under the mask above bit 0. */
  predicate Live(g: bv64, mask: bv64) { g & mask & 0xFFFF_FFFF_FFFF_FFFE != 0 }

  function Entry(gear: seq<bv64>, b: byte): bv64 {
    if b < |gear| then gear[b] else 0
  }

  /** The scan over a gear table and the mask derived from the average size. */
  function GearParams(gear: seq<bv64>, mask: bv64, minSize: nat, maxSize: nat): Params {
    Params((b: byte, fp: bv64) => GearUpdate(Entry(gear, b), fp), (fp: bv64) => Under(fp, mask), minSize, maxSize)
  }

  /** The fingerprint of data[a..b], started from zero at a. */
  function Fingerprint(p: Params, data: seq<byte>, a: nat, b: nat): bv64
    requires a <= b <= |data|
    decreases b
  {
    if a == b then 0 else p.update(data[b - 1], Fingerprint(p, data, a, b - 1))
  }

  /** With byte i, the chunk that starts at a ends on its content. */
  predicate Matches(p: Params, data: seq<byte>, a: nat, i: nat)
    requires a <= i < |data|
  {
    i - a + 1 >= p.minSize && p.hit(Fingerprint(p, data, a, i + 1))
  }

  predicate Cuts(p: Params, data: seq<byte>, a: nat, i: nat)
    requires a <= i < |data|
  {
    Matches(p, data, a, i) || i - a + 1 >= p.maxSize || i == |data| - 1
  }

  // ---------------------------------------------------------------- the chunk list

  datatype Chunk = Chunk(offset: nat, length: nat)

  function CutEnd(p: Params, data: seq<byte>, a: nat, i: nat): (e: nat)
    requires a <= i < |data|
    ensures i < e <= |data| && Cuts(p, data, a, e - 1)
    decreases |data| - i
  {
    if Cuts(p, data, a, i) then i + 1 else CutEnd(p, data, a, i + 1)
  }

  function ChunksFrom(p: Params, data: seq<byte>, a: nat): seq<Chunk>
    requires a <= |data|
    decreases |data| - a
  {
    if a == |data| then []
    else var e := CutEnd(p, data, a, a); [Chunk(a, e - a)] + ChunksFrom(p, data, e)
  }

  // ---------------------------------------------------------------- the scan

  function Pow2(n: nat): nat { if n == 0 then 1 else 2 * Pow2(n - 1) }

  function Log2(v: nat): (r: nat)
    ensures v > 0 ==> Pow2(r) <= v < 2 * Pow2(r)
  {
    if v <= 1 then 0 else 1 + Log2(v / 2)
  }

  function MaskBits(avgSize: nat): nat {
    var n := Log2(avgSize); if n > 1 then n - 2 else n
  }

  /** `1u << n`. */
  function OneAt(n: nat): bv64 { if n == 0 then 1 else OneAt(n - 1) << 1 }

  function LowMask(bits: nat): bv64 { OneAt(bits) - 1 }

  lemma {:induction false} Log2Bounded(v: nat, n: nat)
    requires v < Pow2(n)
    ensures n > 0 ==> Log2(v) < n
  {
    if v > 1 { Log2Bounded(v / 2, n - 1); }
  }

  lemma Pow2Of32()
    ensures Pow2(32) == 0x1_0000_0000
  {
    assert Pow2(8) == 256;
    assert Pow2(16) == 256 * 256 by { Pow2Sum(8, 8); }
    Pow2Sum(16, 16);
  }

  lemma {:induction false} Pow2Sum(a: nat, b: nat)
    ensures Pow2(a + b) == Pow2(a) * Pow2(b)
  {
    if a > 0 { Pow2Sum(a - 1, b); }
  }

  /** The mask leaves two bits less than the average size has. */
  method CountMaskBits(avgSize: nat) returns (bits: nat)
    ensures bits == MaskBits(avgSize)
  {
    bits := 0;
    var v := avgSize;
    while v > 1
      invariant bits + Log2(v) == Log2(avgSize)
      decreases v
    {
      v := v / 2;
      bits := bits + 1;
    }
    if bits > 1 {
      bits := bits - 2;
    }
  }

  method InitMask(avgSize: nat) returns (mask: bv64)
    ensures mask == LowMask(MaskBits(avgSize))
  {
    var bits := CountMaskBits(avgSize);
    mask := OneAt(bits) - 1;
  }

  /** A 32-bit average size never asks for more mask bits than a 32-bit mask has. */
  lemma MaskFits(avgSize: nat)
    requires avgSize < 0x1_0000_0000
    ensures MaskBits(avgSize) < 32
  {
    Pow2Of32();
    Log2Bounded(avgSize, 32);
  }

  method ScanBuffer(data: seq<byte>, gear: seq<bv64>, cfg: CdcConfig) returns (chunks: seq<Chunk>)
    ensures chunks == ChunksFrom(GearParams(gear, LowMask(MaskBits(cfg.avgSize)), cfg.minSize, cfg.maxSize), data, 0)
  {
    var mask := InitMask(cfg.avgSize);
    chunks := Scan(data, GearParams(gear, mask, cfg.minSize, cfg.maxSize));
  }

  lemma Onward<T>(a: seq<T>, x: T, rest: seq<T>)
    ensures (a + [x]) + rest == a + ([x] + rest)
  {
  }

  lemma NextChunk(p: Params, data: seq<byte>, a: nat, e: nat)
    requires a < |data| && e == CutEnd(p, data, a, a)
    ensures ChunksFrom(p, data, a) == [Chunk(a, e - a)] + ChunksFrom(p, data, e)
  {
  }

  lemma Emit(p: Params, data: seq<byte>, chunks: seq<Chunk>, a: nat, i: nat)
    requires a <= i < |data| && Cuts(p, data, a, i) && CutEnd(p, data, a, a) == CutEnd(p, data, a, i)
    ensures (chunks + [Chunk(a, i + 1 - a)]) + ChunksFrom(p, data, i + 1) == chunks + ChunksFrom(p, data, a)
  {
    NextChunk(p, data, a, i + 1);
    Onward(chunks, Chunk(a, i + 1 - a), ChunksFrom(p, data, i + 1));
  }

  method Scan(data: seq<byte>, p: Params) returns (chunks: seq<Chunk>)
    ensures chunks == ChunksFrom(p, data, 0)
  {
    ghost var goal := ChunksFrom(p, data, 0);
    chunks := [];
    var start, i := 0, 0;
    var fingerprint: bv64 := 0;
    assert [] + goal == goal;
    while i < |data|
      invariant 0 <= start <= i <= |data| && (i == |data| ==> start == i)
      invariant fingerprint == Fingerprint(p, data, start, i)
      invariant i < |data| ==> CutEnd(p, data, start, start) == CutEnd(p, data, start, i)
      invariant chunks + ChunksFrom(p, data, start) == goal
    {
      fingerprint := p.update(data[i], fingerprint);
      var pos := i - start + 1;
      var matched := pos >= p.minSize && p.hit(fingerprint);
      if matched || pos >= p.maxSize || i == |data| - 1 {
        var length := if i == |data| - 1 then |data| - start else pos;
        Emit(p, data, chunks, start, i);
        chunks := chunks + [Chunk(start, length)];
        start := i + 1;
        fingerprint := 0;
      }
      i := i + 1;
    }
    assert chunks + [] == chunks;
  }

  // ---------------------------------------------------------------- tiling

  ghost predicate Tiles(chunks: seq<Chunk>, a: nat, b: nat)
    decreases |chunks|
  {
    if chunks == [] then a == b else chunks[0].offset == a && Tiles(chunks[1..], a + chunks[0].length, b)
  }

  function AtLeast1(n: nat): nat { if n == 0 then 1 else n }

  function Min(a: nat, b: nat): nat { if a < b then a else b }

  lemma {:induction false} CutLength(p: Params, data: seq<byte>, a: nat, i: nat)
    requires a <= i < |data|
    requires i - a < AtLeast1(p.maxSize)
    ensures CutEnd(p, data, a, i) - a <= AtLeast1(p.maxSize)
    ensures CutEnd(p, data, a, i) < |data| ==> CutEnd(p, data, a, i) - a >= Min(p.minSize, p.maxSize)
    decreases |data| - i
  {
    if !Cuts(p, data, a, i) { CutLength(p, data, a, i + 1); }
  }

  /** The chunks tile the buffer; none is empty or longer than the maximum, and only the last may be
      shorter than the minimum (or than the maximum, where that is the smaller one). */
  lemma {:induction false} ChunksTile(p: Params, data: seq<byte>, a: nat)
    requires a <= |data|
    ensures var chunks := ChunksFrom(p, data, a);
            && Tiles(chunks, a, |data|)
            && (forall k :: 0 <= k < |chunks| ==> 0 < chunks[k].length <= AtLeast1(p.maxSize))
            && (forall k :: 0 <= k < |chunks| - 1 ==> chunks[k].length >= Min(p.minSize, p.maxSize))
    decreases |data| - a
  {
    if a < |data| {
      var e := CutEnd(p, data, a, a);
      CutLength(p, data, a, a);
      ChunksTile(p, data, e);
      var chunks, rest := ChunksFrom(p, data, a), ChunksFrom(p, data, e);
      assert chunks[1..] == rest;
      assert forall k :: 0 < k < |chunks| ==> chunks[k] == rest[k - 1];
    }
  }

  // ---------------------------------------------------------------- edit locality

  lemma {:induction false} FingerprintSame(p: Params, x: seq<byte>, y: seq<byte>, a: nat, d: int, b: nat)
    requires a <= b <= |x| && 0 <= a + d && b + d <= |y|
    requires forall i :: a <= i < b ==> x[i] == y[i + d]
    ensures Fingerprint(p, x, a, b) == Fingerprint(p, y, a + d, b + d)
  {
    if a < b { FingerprintSame(p, x, y, a, d, b - 1); }
  }

  /** A chunk that x does not end with is cut in y at the same place, if y has the same bytes there. */
  lemma {:induction false} CutSame(p: Params, x: seq<byte>, y: seq<byte>, n: nat, a: nat, i: nat)
    requires a <= i < |x| && n <= |x| && n <= |y| && x[..n] == y[..n]
    requires CutEnd(p, x, a, i) <= n && CutEnd(p, x, a, i) < |x|
    ensures CutEnd(p, y, a, i) == CutEnd(p, x, a, i)
    decreases |x| - i
  {
    forall j | a <= j < n ensures x[j] == y[j] { assert x[..n][j] == y[..n][j]; }
    FingerprintSame(p, x, y, a, 0, i + 1);
    if !Cuts(p, x, a, i) { CutSame(p, x, y, n, a, i + 1); }
  }

  function EndOf(c: Chunk): nat { c.offset + c.length }

  /** Every chunk of x that lies inside the common prefix and is not x's last one is a chunk of y. */
  lemma {:induction false} PrefixChunksSame(p: Params, x: seq<byte>, y: seq<byte>, n: nat, a: nat, k: nat)
    requires n <= |x| && n <= |y| && x[..n] == y[..n] && a <= n
    requires k + 1 < |ChunksFrom(p, x, a)| && EndOf(ChunksFrom(p, x, a)[k]) <= n
    ensures k < |ChunksFrom(p, y, a)|
    ensures ChunksFrom(p, x, a)[..k + 1] == ChunksFrom(p, y, a)[..k + 1]
    decreases k
  {
    var e := CutEnd(p, x, a, a);
    var cx := ChunksFrom(p, x, a);
    assert cx[1..] == ChunksFrom(p, x, e);
    if k > 0 { ChunkEndsGrow(p, x, e, k - 1); }
    CutSame(p, x, y, n, a, a);
    var cy := ChunksFrom(p, y, a);
    assert cy[1..] == ChunksFrom(p, y, e);
    if k > 0 {
      PrefixChunksSame(p, x, y, n, e, k - 1);
      assert cx[..k + 1] == [cx[0]] + cx[1..][..k];
      assert cy[..k + 1] == [cy[0]] + cy[1..][..k];
    }
  }

  lemma {:induction false} ChunkEndsGrow(p: Params, data: seq<byte>, a: nat, k: nat)
    requires a <= |data| && k < |ChunksFrom(p, data, a)|
    ensures a < EndOf(ChunksFrom(p, data, a)[k])
    decreases k
  {
    if k > 0 {
      var e := CutEnd(p, data, a, a);
      assert ChunksFrom(p, data, a)[1..] == ChunksFrom(p, data, e);
      ChunkEndsGrow(p, data, e, k - 1);
    }
  }

  lemma {:induction false} CutShifted(p: Params, x: seq<byte>, y: seq<byte>, a: nat, d: int, i: nat)
    requires a <= i < |x| && 0 <= a + d && |y| == |x| + d
    requires forall j :: a <= j < |x| ==> x[j] == y[j + d]
    ensures CutEnd(p, y, a + d, i + d) == CutEnd(p, x, a, i) + d
    decreases |x| - i
  {
    FingerprintSame(p, x, y, a, d, i + 1);
    if !Cuts(p, x, a, i) { CutShifted(p, x, y, a, d, i + 1); }
  }

  /** The lists correspond chunk by chunk, one shifted by d. */
  ghost predicate Shifted(cx: seq<Chunk>, cy: seq<Chunk>, d: int) {
    && |cx| == |cy|
    && (forall k :: 0 <= k < |cx| ==> cy[k].offset == cx[k].offset + d && cy[k].length == cx[k].length)
  }

  lemma ShiftedCons(c: Chunk, c': Chunk, cx: seq<Chunk>, cy: seq<Chunk>, d: int)
    requires Shifted(cx, cy, d) && c'.offset == c.offset + d && c'.length == c.length
    ensures Shifted([c] + cx, [c'] + cy, d)
  {
  }

  lemma {:induction false} ChunksShifted(p: Params, x: seq<byte>, y: seq<byte>, a: nat, d: int)
    requires a <= |x| && 0 <= a + d && |y| == |x| + d
    requires forall j :: a <= j < |x| ==> x[j] == y[j + d]
    ensures Shifted(ChunksFrom(p, x, a), ChunksFrom(p, y, a + d), d)
    decreases |x| - a
  {
    if a < |x| {
      CutShifted(p, x, y, a, d, a);
      var e := CutEnd(p, x, a, a);
      ChunksShifted(p, x, y, e, d);
      ShiftedCons(Chunk(a, e - a), Chunk(a + d, e - a), ChunksFrom(p, x, e), ChunksFrom(p, y, e + d), d);
    }
  }

  lemma TailsAgree(x: seq<byte>, y: seq<byte>, a: nat, b: nat)
    requires a <= |x| && b <= |y| && x[a..] == y[b..]
    ensures |x| - a == |y| - b && forall j :: a <= j < |x| ==> x[j] == y[j + (b - a)]
  {
    assert |x[a..]| == |y[b..]|;
    forall j | a <= j < |x| ensures x[j] == y[j + (b - a)] { assert x[a..][j - a] == y[b..][j - a]; }
  }

  /** Scans restarted at a in x and b in y, with the same bytes after both, find the same chunks up to
      the shift b - a. */
  lemma RestartsAgree(p: Params, x: seq<byte>, y: seq<byte>, a: nat, b: nat)
    requires a <= |x| && b <= |y| && x[a..] == y[b..]
    ensures Shifted(ChunksFrom(p, x, a), ChunksFrom(p, y, b), b - a)
  {
    TailsAgree(x, y, a, b);
    ChunksShifted(p, x, y, a, b - a);
  }

  /** From its i-th chunk on, a file's chunk list is the scan restarted there: nothing before a
      boundary matters behind it. */
  lemma {:induction false} TailIsRestart(p: Params, data: seq<byte>, a: nat, i: nat)
    requires a <= |data| && i < |ChunksFrom(p, data, a)|
    ensures var o := ChunksFrom(p, data, a)[i].offset;
            a <= o < |data| && ChunksFrom(p, data, a)[i..] == ChunksFrom(p, data, o)
    decreases i
  {
    var e := CutEnd(p, data, a, a);
    assert ChunksFrom(p, data, a)[1..] == ChunksFrom(p, data, e);
    if i > 0 {
      TailIsRestart(p, data, e, i - 1);
      assert ChunksFrom(p, data, a)[i..] == ChunksFrom(p, data, e)[i - 1..];
    }
  }

  /** Where chunk i of x and chunk j of y start with the same bytes up to the ends of the files, the
      two chunk lists have equally many chunks left, and these correspond one by one up to the shift. */
  lemma SuffixResyncs(p: Params, x: seq<byte>, y: seq<byte>, cx: seq<Chunk>, cy: seq<Chunk>, i: nat, j: nat)
    requires cx == ChunksFrom(p, x, 0) && cy == ChunksFrom(p, y, 0) && i < |cx| && j < |cy|
    requires cx[i].offset <= |x| && cy[j].offset <= |y| && x[cx[i].offset..] == y[cy[j].offset..]
    ensures Shifted(cx[i..], cy[j..], cy[j].offset - cx[i].offset)
  {
    TailIsRestart(p, x, 0, i);
    TailIsRestart(p, y, 0, j);
    RestartsAgree(p, x, y, cx[i].offset, cy[j].offset);
  }

  /** A chunk ends no later than at the first byte that cuts. */
  lemma {:induction false} CutsBy(p: Params, data: seq<byte>, a: nat, i: nat, j: nat)
    requires a <= i <= j < |data| && Cuts(p, data, a, j)
    ensures CutEnd(p, data, a, i) <= j + 1
    decreases j - i
  {
    if !Cuts(p, data, a, i) { CutsBy(p, data, a, i + 1, j); }
  }

  // ---------------------------------------------------------------- what a content cut needs

  /** One update: a zero under the mask needs the new entry to be zero on the mask's bits above the
      lowest, and the old fingerprint to be zero under the mask moved right by one. */
  lemma UpdateZero(g: bv64, fp: bv64, mask: bv64)
    requires Under(GearUpdate(g, fp), mask)
    ensures !Live(g, mask) && Under(fp, mask >> 1)
  {
  }

  /** `mask >> j`. */
  function MovedRight(mask: bv64, j: nat): bv64 { if j == 0 then mask else MovedRight(mask, j - 1) >> 1 }

  /** A content cut at byte i forces the entry of byte i - j to be zero on the bits from 1 up of the
      mask moved right by j. */
  lemma {:induction false} ContentCutNeedsZeros(gear: seq<bv64>, mask: bv64, minSize: nat, maxSize: nat,
                                                data: seq<byte>, a: nat, i: nat, j: nat)
    requires a <= i < |data| && Matches(GearParams(gear, mask, minSize, maxSize), data, a, i) && j <= i - a
    ensures !Live(Entry(gear, data[i - j]), MovedRight(mask, j))
    ensures Under(Fingerprint(GearParams(gear, mask, minSize, maxSize), data, a, i - j), MovedRight(mask, j + 1))
  {
    var p := GearParams(gear, mask, minSize, maxSize);
    if j > 0 { ContentCutNeedsZeros(gear, mask, minSize, maxSize, data, a, i, j - 1); }
    UpdateZero(Entry(gear, data[i - j]), Fingerprint(p, data, a, i - j), MovedRight(mask, j));
  }

  /** No entry of the table is zero on the mask's bits above bit 0. */
  ghost predicate NoZeroEntry(gear: seq<bv64>, mask: bv64) {
    forall b: byte :: Live(Entry(gear, b), mask)
  }

  lemma LiveNeverHits(g: bv64, fp: bv64, mask: bv64)
    requires Live(g, mask)
    ensures !Under(GearUpdate(g, fp), mask)
  {
  }

  /** Then no fingerprint of a non-empty run of bytes cuts. */
  ghost predicate NeverHits(p: Params) {
    forall b: byte, fp: bv64 :: !p.hit(p.update(b, fp))
  }

  lemma NoZeroEntryNeverHits(gear: seq<bv64>, mask: bv64, minSize: nat, maxSize: nat)
    requires NoZeroEntry(gear, mask)
    ensures NeverHits(GearParams(gear, mask, minSize, maxSize))
  {
    var p := GearParams(gear, mask, minSize, maxSize);
    forall b: byte, fp: bv64 ensures !p.hit(p.update(b, fp)) {
      LiveNeverHits(Entry(gear, b), fp, mask);
    }
  }

  function FixedBlocks(size: nat, block: nat, a: nat): seq<Chunk>
    requires a <= size && block > 0
    decreases size - a
  {
    if a == size then []
    else if a + block >= size then [Chunk(a, size - a)]
    else [Chunk(a, block)] + FixedBlocks(size, block, a + block)
  }

  /** No chunk of the buffer ends on its content before the maximum size. */
  ghost predicate ContentHasNoSay(p: Params, data: seq<byte>) {
    forall a, i :: 0 <= a <= i < |data| && i - a + 1 < p.maxSize ==> !Matches(p, data, a, i)
  }

  lemma {:induction false} NoContentCut(p: Params, data: seq<byte>, a: nat, i: nat)
    requires ContentHasNoSay(p, data) && a <= i < |data| && i - a < AtLeast1(p.maxSize)
    ensures CutEnd(p, data, a, i) == Min(a + AtLeast1(p.maxSize), |data|)
    decreases |data| - i
  {
    if !Cuts(p, data, a, i) { NoContentCut(p, data, a, i + 1); }
  }

  lemma {:induction false} NoSayMeansFixed(p: Params, data: seq<byte>, a: nat)
    requires ContentHasNoSay(p, data) && a <= |data|
    ensures ChunksFrom(p, data, a) == FixedBlocks(|data|, AtLeast1(p.maxSize), a)
    decreases |data| - a
  {
    if a < |data| {
      NoContentCut(p, data, a, a);
      var e := CutEnd(p, data, a, a);
      NextChunk(p, data, a, e);
      if e < |data| { NoSayMeansFixed(p, data, e); }
    }
  }

  /** A table with no entry that is zero on the mask's bits above bit 0 makes the scan a plain
      division into blocks of the maximum size. */
  lemma NoZeroEntryMeansFixedBlocks(gear: seq<bv64>, mask: bv64, minSize: nat, maxSize: nat, data: seq<byte>)
    requires NoZeroEntry(gear, mask)
    ensures ChunksFrom(GearParams(gear, mask, minSize, maxSize), data, 0) == FixedBlocks(|data|, AtLeast1(maxSize), 0)
  {
    NoZeroEntryNeverHits(gear, mask, minSize, maxSize);
    NoSayMeansFixed(GearParams(gear, mask, minSize, maxSize), data, 0);
  }
}
