/** The `.tseed` file: layout, byte-order detection and the info-hash preimage. */
module SeedFile {
  import opened Counting
  import opened Assembly
  import opened ByteOrder

  const MAGIC: nat := 0x54425344

  datatype ChunkEntry = ChunkEntry(offset: nat, length: nat, sha: seq<byte>)

  datatype Seed = Seed(
    version: nat,
    flags: nat,
    fileSize: nat,
    minSize: nat,
    avgSize: nat,
    maxSize: nat,
    reserved: seq<byte>,
    fileSha: seq<byte>,
    fileName: seq<byte>,
    announceUrl: seq<byte>,
    chunks: seq<ChunkEntry>)

  /** Files are written in network order; older writers used the host's. */
  datatype Order = Network | Host

  datatype SeedError = UnexpectedEof | BadMagic | BadVersion

  datatype Result = Ok(seed: Seed) | Err(error: SeedError)

  ghost predicate EntryOk(c: ChunkEntry) { c.offset < U64 && c.length < U32 && |c.sha| == 32 }

  /** What the header's fields can carry and the reader supports. */
  ghost predicate SeedOk(s: Seed) {
    && 1 <= s.version <= 4 && s.flags < U16 && s.fileSize < U64
    && s.minSize < U32 && s.avgSize < U32 && s.maxSize < U32
    && |s.reserved| == 20 && |s.fileSha| == 32
    && |s.fileName| < U32 && |s.announceUrl| < U32 && |s.chunks| < U32
    && (forall i :: 0 <= i < |s.chunks| ==> EntryOk(s.chunks[i]))
  }

  // ---------------------------------------------------------------- integers in either order

  function Put(o: Order, n: nat, w: nat): (r: seq<byte>)
    ensures |r| == w
  {
    if o == Network then Big(n, w) else Little(n, w)
  }

  function Get(o: Order, bs: seq<byte>): nat { if o == Network then FromBig(bs) else FromLittle(bs) }

  function PutAll(o: Order, values: seq<nat>, widths: seq<nat>): seq<byte>
    requires |values| == |widths|
  {
    if values == [] then [] else Put(o, values[0], widths[0]) + PutAll(o, values[1..], widths[1..])
  }

  function Width(widths: seq<nat>): nat { if widths == [] then 0 else widths[0] + Width(widths[1..]) }

  function GetAll(o: Order, bs: seq<byte>, widths: seq<nat>): (r: seq<nat>)
    requires |bs| >= Width(widths)
    ensures |r| == |widths|
    decreases |widths|
  {
    if widths == [] then [] else [Get(o, bs[..widths[0]])] + GetAll(o, bs[widths[0]..], widths[1..])
  }

  ghost predicate AllFit(values: seq<nat>, widths: seq<nat>)
    requires |values| == |widths|
  {
    values == [] || (values[0] < Pow256(widths[0]) && AllFit(values[1..], widths[1..]))
  }

  lemma GetOfPut(o: Order, n: nat, w: nat)
    requires n < Pow256(w)
    ensures Get(o, Put(o, n, w)) == n
  {
    FromBigOfBig(n, w);
    FromLittleOfLittle(n, w);
  }

  lemma {:induction false} GetAllOfPutAll(o: Order, values: seq<nat>, widths: seq<nat>, more: seq<byte>)
    requires |values| == |widths| && AllFit(values, widths)
    ensures |PutAll(o, values, widths)| == Width(widths)
    ensures GetAll(o, PutAll(o, values, widths) + more, widths) == values
    decreases |values|
  {
    if values != [] {
      var head, tail := Put(o, values[0], widths[0]), PutAll(o, values[1..], widths[1..]);
      GetAllOfPutAll(o, values[1..], widths[1..], more);
      GetOfPut(o, values[0], widths[0]);
      HeadAndRest(head, tail, more);
    }
  }

  lemma HeadAndRest(head: seq<byte>, tail: seq<byte>, more: seq<byte>)
    ensures ((head + tail) + more)[..|head|] == head && ((head + tail) + more)[|head|..] == tail + more
  {
  }

  // ---------------------------------------------------------------- layout

  const HEADER_WIDTHS: seq<nat> := [2, 2, 4, 8, 4, 4, 4, 4, 4]

  function HeaderValues(s: Seed): seq<nat> {
    [s.version, s.flags, |s.chunks|, s.fileSize, s.minSize, s.avgSize, s.maxSize, |s.fileName|, |s.announceUrl|]
  }

  function HeaderBytes(o: Order, s: Seed): seq<byte> {
    Put(o, MAGIC, 4) + (PutAll(o, HeaderValues(s), HEADER_WIDTHS) + (s.reserved + s.fileSha))
  }

  function EntryBytes(o: Order, c: ChunkEntry): seq<byte> { Put(o, c.offset, 8) + (Put(o, c.length, 4) + c.sha) }

  function EntriesBytes(o: Order, cs: seq<ChunkEntry>): seq<byte> {
    if cs == [] then [] else EntryBytes(o, cs[0]) + EntriesBytes(o, cs[1..])
  }

  function SeedBytes(o: Order, s: Seed): seq<byte> {
    HeaderBytes(o, s) + (s.fileName + (s.announceUrl + EntriesBytes(o, s.chunks)))
  }

  // ---------------------------------------------------------------- reading

  function ReadEntry(o: Order, bs: seq<byte>): ChunkEntry
    requires |bs| >= 44
  {
    ChunkEntry(Get(o, bs[..8]), Get(o, bs[8..12]), bs[12..44])
  }

  function ReadEntries(o: Order, bs: seq<byte>, count: nat): Option<seq<ChunkEntry>>
    decreases count
  {
    if count == 0 then Some([])
    else if |bs| < 44 then None
    else Prepend([ReadEntry(o, bs)], ReadEntries(o, bs[44..], count - 1))
  }

  function Prepend(front: seq<ChunkEntry>, r: Option<seq<ChunkEntry>>): Option<seq<ChunkEntry>> {
    match r case None => None case Some(rest) => Some(front + rest)
  }

  lemma PrependTwice(front: seq<ChunkEntry>, c: ChunkEntry, r: Option<seq<ChunkEntry>>)
    ensures Prepend(front, Prepend([c], r)) == Prepend(front + [c], r)
    ensures Prepend([], r) == r
  {
    match r
    case None =>
    case Some(rest) => assert front + ([c] + rest) == (front + [c]) + rest && [] + rest == rest;
  }

  /** A raw magic that reads right in host order means an old file; otherwise every field is swapped,
      and a magic that is still wrong is an error. */
  function DetectOrder(bs: seq<byte>): Option<Order>
    requires |bs| >= 4
  {
    if FromLittle(bs[..4]) == MAGIC then Some(Host)
    else if FromBig(bs[..4]) == MAGIC then Some(Network)
    else None
  }

  function ReadBody(o: Order, h: seq<nat>, tail: seq<byte>, body: seq<byte>): Result
    requires |h| == 9 && |tail| == 52
  {
    var nameLen, urlLen, count := h[7], h[8], h[2];
    if |body| < nameLen + urlLen then Err(UnexpectedEof)
    else match ReadEntries(o, body[nameLen + urlLen..], count)
      case None => Err(UnexpectedEof)
      case Some(chunks) =>
        Ok(Seed(h[0], h[1], h[3], h[4], h[5], h[6], tail[..20], tail[20..],
                body[..nameLen], body[nameLen..nameLen + urlLen], chunks))
  }

  lemma HeaderWidth()
    ensures Width(HEADER_WIDTHS) == 36
  {
    assert HEADER_WIDTHS[1..] == [2, 4, 8, 4, 4, 4, 4, 4];
    assert [2, 4, 8, 4, 4, 4, 4, 4][1..] == [4, 8, 4, 4, 4, 4, 4];
    assert [4, 8, 4, 4, 4, 4, 4][1..] == [8, 4, 4, 4, 4, 4];
    assert [8, 4, 4, 4, 4, 4][1..] == [4, 4, 4, 4, 4];
    assert [4, 4, 4, 4, 4][1..] == [4, 4, 4, 4];
    assert [4, 4, 4, 4][1..] == [4, 4, 4];
    assert [4, 4, 4][1..] == [4, 4];
    assert [4, 4][1..] == [4];
  }

  function ReadSeed(bs: seq<byte>): Result {
    if |bs| < 92 then Err(UnexpectedEof)
    else match DetectOrder(bs)
      case None => Err(BadMagic)
      case Some(o) =>
        HeaderWidth();
        var h := GetAll(o, bs[4..], HEADER_WIDTHS);
        if h[0] < 1 || h[0] > 4 then Err(BadVersion) else ReadBody(o, h, bs[40..92], bs[92..])
  }

  method ReadChunks(o: Order, bs: seq<byte>, count: nat) returns (r: Option<seq<ChunkEntry>>)
    ensures r == ReadEntries(o, bs, count)
  {
    ghost var goal := ReadEntries(o, bs, count);
    var chunks: seq<ChunkEntry> := [];
    var rest := bs;
    PrependTwice([], ChunkEntry(0, 0, []), goal);
    for i := 0 to count
      invariant Prepend(chunks, ReadEntries(o, rest, count - i)) == goal
    {
      if |rest| < 44 {
        return None;
      }
      var c := ReadEntry(o, rest);
      PrependTwice(chunks, c, ReadEntries(o, rest[44..], count - i - 1));
      chunks := chunks + [c];
      rest := rest[44..];
    }
    assert chunks + [] == chunks;
    return Some(chunks);
  }

  /** Header, byte order, version, names and chunks, read in sequence: a seed is returned exactly when
      the file starts with that seed written in one of the two orders. */
  method ReadFile(bs: seq<byte>) returns (r: Result)
    ensures forall s :: r == Ok(s) <==> SeedOk(s) && StartsWith(bs, s)
    ensures |bs| < 92 ==> r == Err(UnexpectedEof)
    ensures |bs| >= 92 && DetectOrder(bs).None? ==> r == Err(BadMagic)
  {
    forall s ensures ReadSeed(bs) == Ok(s) <==> SeedOk(s) && StartsWith(bs, s) { ReadsWhatStandsThere(bs, s); }
    if |bs| < 92 {
      return Err(UnexpectedEof);
    }
    var order := DetectOrder(bs);
    if order.None? {
      return Err(BadMagic);
    }
    HeaderWidth();
    var o := order.value;
    var h := GetAll(o, bs[4..], HEADER_WIDTHS);
    if h[0] < 1 || h[0] > 4 {
      return Err(BadVersion);
    }
    r := ReadRest(o, h, bs[40..92], bs[92..]);
  }

  method ReadRest(o: Order, h: seq<nat>, tail: seq<byte>, body: seq<byte>) returns (r: Result)
    requires |h| == 9 && |tail| == 52
    ensures r == ReadBody(o, h, tail, body)
  {
    var nameLen, urlLen := h[7], h[8];
    if |body| < nameLen + urlLen {
      return Err(UnexpectedEof);
    }
    var chunks := ReadChunks(o, body[nameLen + urlLen..], h[2]);
    if chunks.None? {
      return Err(UnexpectedEof);
    }
    return Ok(Seed(h[0], h[1], h[3], h[4], h[5], h[6], tail[..20], tail[20..],
                   body[..nameLen], body[nameLen..nameLen + urlLen], chunks.value));
  }

  // ---------------------------------------------------------------- round trip

  lemma MagicIsDetected(o: Order, more: seq<byte>)
    ensures DetectOrder(Put(o, MAGIC, 4) + more) == Some(o)
  {
    assert (Put(o, MAGIC, 4) + more)[..4] == Put(o, MAGIC, 4);
    Widths();
    FromBigOfBig(MAGIC, 4);
    FromLittleOfLittle(MAGIC, 4);
    MagicDiffers();
  }

  lemma MagicDiffers()
    ensures FromLittle(Big(MAGIC, 4)) != MAGIC
  {
    var bs := Big(MAGIC, 4);
    assert bs == [0x54, 0x42, 0x53, 0x44];
    assert FromLittle(bs) % 256 == 0x54;
  }

  lemma EntryRoundTrip(o: Order, c: ChunkEntry, more: seq<byte>)
    requires EntryOk(c)
    ensures |EntryBytes(o, c)| == 44 && ReadEntry(o, EntryBytes(o, c) + more) == c
  {
    Widths();
    var bs := EntryBytes(o, c) + more;
    assert bs[..8] == Put(o, c.offset, 8) && bs[8..12] == Put(o, c.length, 4) && bs[12..44] == c.sha;
    GetOfPut(o, c.offset, 8);
    GetOfPut(o, c.length, 4);
  }

  lemma {:induction false} EntriesRoundTrip(o: Order, cs: seq<ChunkEntry>, more: seq<byte>)
    requires forall i :: 0 <= i < |cs| ==> EntryOk(cs[i])
    ensures ReadEntries(o, EntriesBytes(o, cs) + more, |cs|) == Some(cs)
    decreases |cs|
  {
    if cs != [] {
      var rest := EntriesBytes(o, cs[1..]) + more;
      EntryRoundTrip(o, cs[0], rest);
      EntriesRoundTrip(o, cs[1..], more);
      assert EntriesBytes(o, cs) + more == EntryBytes(o, cs[0]) + rest;
      assert (EntriesBytes(o, cs) + more)[44..] == rest;
      assert cs == [cs[0]] + cs[1..];
    }
  }

  lemma HeaderValuesFit(s: Seed)
    requires SeedOk(s)
    ensures AllFit(HeaderValues(s), HEADER_WIDTHS)
  {
    Widths();
    FitEach(HeaderValues(s), HEADER_WIDTHS);
  }

  lemma {:induction false} FitEach(values: seq<nat>, widths: seq<nat>)
    requires |values| == |widths| && forall i :: 0 <= i < |values| ==> values[i] < Pow256(widths[i])
    ensures AllFit(values, widths)
  {
    if values != [] { FitEach(values[1..], widths[1..]); }
  }

  lemma HeaderReads(o: Order, s: Seed, more: seq<byte>)
    requires SeedOk(s)
    ensures var bs := HeaderBytes(o, s) + more;
            && |HeaderBytes(o, s)| == 92 && DetectOrder(bs) == Some(o)
            && Width(HEADER_WIDTHS) <= |bs[4..]| && GetAll(o, bs[4..], HEADER_WIDTHS) == HeaderValues(s)
            && bs[40..92] == s.reserved + s.fileSha && bs[92..] == more
  {
    HeaderWidth();
    HeaderValuesFit(s);
    var ints := PutAll(o, HeaderValues(s), HEADER_WIDTHS);
    var tail := s.reserved + s.fileSha;
    GetAllOfPutAll(o, HeaderValues(s), HEADER_WIDTHS, tail + more);
    HeaderParts(Put(o, MAGIC, 4), ints, tail, more);
    MagicIsDetected(o, ints + (tail + more));
  }

  lemma HeaderParts(magic: seq<byte>, ints: seq<byte>, tail: seq<byte>, more: seq<byte>)
    requires |magic| == 4 && |ints| == 36 && |tail| == 52
    ensures var bs := (magic + (ints + tail)) + more;
            && bs == magic + (ints + (tail + more)) && bs[4..] == ints + (tail + more)
            && bs[40..92] == tail && bs[92..] == more
  {
  }

  lemma BodyReads(o: Order, s: Seed, more: seq<byte>)
    requires SeedOk(s)
    ensures ReadBody(o, HeaderValues(s), s.reserved + s.fileSha,
                     s.fileName + (s.announceUrl + (EntriesBytes(o, s.chunks) + more))) == Ok(s)
  {
    var tail, entries := s.reserved + s.fileSha, EntriesBytes(o, s.chunks) + more;
    var body := s.fileName + (s.announceUrl + entries);
    var n, u := |s.fileName|, |s.announceUrl|;
    EntriesRoundTrip(o, s.chunks, more);
    assert body[..n] == s.fileName && body[n..n + u] == s.announceUrl && body[n + u..] == entries;
    assert tail[..20] == s.reserved && tail[20..] == s.fileSha;
  }

  /** Reading a written seed returns it, whichever byte order it was written in and whatever follows. */
  lemma SeedRoundTrip(o: Order, s: Seed, more: seq<byte>)
    requires SeedOk(s)
    ensures ReadSeed(SeedBytes(o, s) + more) == Ok(s)
  {
    var entries := EntriesBytes(o, s.chunks);
    InFourParts(HeaderBytes(o, s), s.fileName, s.announceUrl, entries, more);
    HeaderReads(o, s, s.fileName + (s.announceUrl + (entries + more)));
    BodyReads(o, s, more);
  }

  lemma InFourParts(h: seq<byte>, n: seq<byte>, u: seq<byte>, e: seq<byte>, more: seq<byte>)
    ensures (h + (n + (u + e))) + more == h + (n + (u + (e + more)))
  {
  }

  // ---------------------------------------------------------------- what is read stands in the file

  lemma PutOfGet(o: Order, bs: seq<byte>)
    ensures Get(o, bs) < Pow256(|bs|) && Put(o, Get(o, bs), |bs|) == bs
  {
    BigOfFromBig(bs);
    LittleOfFromLittle(bs);
  }

  lemma {:induction false} PutAllOfGetAll(o: Order, bs: seq<byte>, widths: seq<nat>)
    requires |bs| >= Width(widths)
    ensures AllFit(GetAll(o, bs, widths), widths)
    ensures PutAll(o, GetAll(o, bs, widths), widths) == bs[..Width(widths)]
    decreases |widths|
  {
    if widths != [] {
      var w := widths[0];
      PutOfGet(o, bs[..w]);
      PutAllOfGetAll(o, bs[w..], widths[1..]);
      TakeInTwo(bs, w, Width(widths[1..]));
      assert GetAll(o, bs, widths)[1..] == GetAll(o, bs[w..], widths[1..]);
    }
  }

  lemma TakeInTwo(bs: seq<byte>, w: nat, n: nat)
    requires w + n <= |bs|
    ensures bs[..w + n] == bs[..w] + bs[w..][..n]
  {
  }

  lemma {:induction false} FitsEach(values: seq<nat>, widths: seq<nat>, i: nat)
    requires |values| == |widths| && AllFit(values, widths) && i < |values|
    ensures values[i] < Pow256(widths[i])
  {
    if i > 0 { FitsEach(values[1..], widths[1..], i - 1); }
  }

  lemma EntryStands(o: Order, bs: seq<byte>)
    requires |bs| >= 44
    ensures EntryOk(ReadEntry(o, bs)) && EntryBytes(o, ReadEntry(o, bs)) == bs[..44]
  {
    Widths();
    PutOfGet(o, bs[..8]);
    PutOfGet(o, bs[8..12]);
    assert bs[..44] == bs[..8] + (bs[8..12] + bs[12..44]);
  }

  lemma {:induction false} EntriesStand(o: Order, bs: seq<byte>, count: nat)
    requires ReadEntries(o, bs, count).Some?
    ensures var cs := ReadEntries(o, bs, count).value;
            |cs| == count && (forall i :: 0 <= i < count ==> EntryOk(cs[i])) && EntriesBytes(o, cs) <= bs
    decreases count
  {
    if count > 0 {
      var cs, c := ReadEntries(o, bs, count).value, ReadEntry(o, bs);
      EntryStands(o, bs);
      EntriesStand(o, bs[44..], count - 1);
      assert cs[0] == c && cs[1..] == ReadEntries(o, bs[44..], count - 1).value;
      assert bs == bs[..44] + bs[44..];
    }
  }

  ghost predicate StartsWith(bs: seq<byte>, s: Seed) { exists o :: SeedBytes(o, s) <= bs }

  /** The fields of a header that was read are what it would be written from. */
  lemma HeaderStands(o: Order, bs: seq<byte>)
    requires |bs| >= 92 && DetectOrder(bs) == Some(o)
    ensures Width(HEADER_WIDTHS) <= |bs[4..]|
    ensures var h := GetAll(o, bs[4..], HEADER_WIDTHS);
            && h[0] < U16 && h[1] < U16 && h[2] < U32 && h[3] < U64 && h[4] < U32 && h[5] < U32 && h[6] < U32
            && h[7] < U32 && h[8] < U32
            && Put(o, MAGIC, 4) + (PutAll(o, h, HEADER_WIDTHS) + bs[40..92]) == bs[..92]
  {
    HeaderWidth();
    Widths();
    PutOfGet(o, bs[..4]);
    PutAllOfGetAll(o, bs[4..], HEADER_WIDTHS);
    var h := GetAll(o, bs[4..], HEADER_WIDTHS);
    forall i | 0 <= i < 9 ensures h[i] < Pow256(HEADER_WIDTHS[i]) { FitsEach(h, HEADER_WIDTHS, i); }
    assert bs[4..][..36] == bs[4..40];
    assert bs[..92] == bs[..4] + (bs[4..40] + bs[40..92]);
  }

  lemma BodyStands(o: Order, h: seq<nat>, tail: seq<byte>, body: seq<byte>)
    requires |h| == 9 && |tail| == 52 && ReadBody(o, h, tail, body).Ok?
    ensures var s := ReadBody(o, h, tail, body).seed;
            && HeaderValues(s) == h && s.reserved + s.fileSha == tail && |s.reserved| == 20
            && (forall i :: 0 <= i < |s.chunks| ==> EntryOk(s.chunks[i]))
            && s.fileName + (s.announceUrl + EntriesBytes(o, s.chunks)) <= body
  {
    var n, u := h[7], h[8];
    EntriesStand(o, body[n + u..], h[2]);
    var s := ReadBody(o, h, tail, body).seed;
    assert HeaderValues(s) == h;
    assert body == body[..n] + (body[n..n + u] + body[n + u..]);
    assert tail == tail[..20] + tail[20..];
  }

  lemma ReadSeedStands(bs: seq<byte>)
    requires ReadSeed(bs).Ok?
    ensures SeedOk(ReadSeed(bs).seed) && StartsWith(bs, ReadSeed(bs).seed)
  {
    var o, s := DetectOrder(bs).value, ReadSeed(bs).seed;
    HeaderStands(o, bs);
    var h := GetAll(o, bs[4..], HEADER_WIDTHS);
    BodyStands(o, h, bs[40..92], bs[92..]);
    assert bs == bs[..92] + bs[92..];
    assert SeedBytes(o, s) <= bs;
  }

  /** Reading returns a seed exactly when the file starts with that seed, written in either order. */
  lemma ReadsWhatStandsThere(bs: seq<byte>, s: Seed)
    ensures ReadSeed(bs) == Ok(s) <==> SeedOk(s) && StartsWith(bs, s)
  {
    if SeedOk(s) && StartsWith(bs, s) {
      var o :| SeedBytes(o, s) <= bs;
      SeedRoundTrip(o, s, bs[|SeedBytes(o, s)|..]);
      assert bs == SeedBytes(o, s) + bs[|SeedBytes(o, s)|..];
    }
    if ReadSeed(bs) == Ok(s) { ReadSeedStands(bs); }
  }

  // ---------------------------------------------------------------- writing

  /** The end of the last byte any chunk covers. */
  method TotalSize(chunks: seq<ChunkEntry>) returns (total: nat)
    ensures forall i :: 0 <= i < |chunks| ==> chunks[i].offset + chunks[i].length <= total
    ensures total == 0 || exists i :: 0 <= i < |chunks| && chunks[i].offset + chunks[i].length == total
  {
    total := 0;
    for i := 0 to |chunks|
      invariant forall j :: 0 <= j < i ==> chunks[j].offset + chunks[j].length <= total
      invariant total == 0 || exists j :: 0 <= j < i && chunks[j].offset + chunks[j].length == total
    {
      var end := chunks[i].offset + chunks[i].length;
      if end > total {
        total := end;
      }
    }
  }

  lemma EntriesPush(o: Order, cs: seq<ChunkEntry>, c: ChunkEntry)
    ensures EntriesBytes(o, cs + [c]) == EntriesBytes(o, cs) + EntryBytes(o, c)
  {
    if cs == [] {
      assert cs + [c] == [c];
      assert EntriesBytes(o, [c]) == EntryBytes(o, c) + EntriesBytes(o, []);
    } else {
      assert (cs + [c])[1..] == cs[1..] + [c];
      EntriesPush(o, cs[1..], c);
    }
  }

  method AppendEntries(start: seq<byte>, chunks: seq<ChunkEntry>) returns (bs: seq<byte>)
    ensures bs == start + EntriesBytes(Network, chunks)
  {
    bs := start;
    assert chunks[..0] == [];
    for i := 0 to |chunks|
      invariant bs == start + EntriesBytes(Network, chunks[..i])
    {
      EntriesPush(Network, chunks[..i], chunks[i]);
      assert chunks[..i + 1] == chunks[..i] + [chunks[i]];
      bs := bs + EntryBytes(Network, chunks[i]);
    }
    assert chunks[..|chunks|] == chunks;
  }

  /** Appends header, names and chunk entries one after another, in network order. */
  method WriteSeed(fileSha: seq<byte>, fileName: seq<byte>, announceUrl: seq<byte>, chunks: seq<ChunkEntry>,
                   minSize: nat, avgSize: nat, maxSize: nat)
    returns (bs: seq<byte>, s: Seed)
    ensures bs == SeedBytes(Network, s)
    ensures s == Seed(1, 0, s.fileSize, minSize, avgSize, maxSize, seq(20, _ => 0),
                    fileSha, fileName, announceUrl, chunks)
    ensures forall i :: 0 <= i < |chunks| ==> chunks[i].offset + chunks[i].length <= s.fileSize
    ensures s.fileSize == 0 || exists i :: 0 <= i < |chunks| && chunks[i].offset + chunks[i].length == s.fileSize
  {
    var total := TotalSize(chunks);
    s := Seed(1, 0, total, minSize, avgSize, maxSize, seq(20, _ => 0), fileSha, fileName, announceUrl, chunks);
    bs := HeaderBytes(Network, s);
    bs := bs + fileName;
    bs := bs + announceUrl;
    bs := AppendEntries(bs, chunks);
    InThreeParts(HeaderBytes(Network, s), fileName, announceUrl, EntriesBytes(Network, chunks));
  }

  lemma InThreeParts(h: seq<byte>, n: seq<byte>, u: seq<byte>, e: seq<byte>)
    ensures ((h + n) + u) + e == h + (n + (u + e))
  {
  }

  // ---------------------------------------------------------------- info hash

  /** What SHA-1 is taken of: the file's hash and the chunk entries in network order. */
  function Preimage(fileSha: seq<byte>, chunks: seq<ChunkEntry>): seq<byte> {
    fileSha + EntriesBytes(Network, chunks)
  }

  /** The buffer grown by the reader, and in the same way by the command line. */
  method InfoHashBuffer(fileSha: seq<byte>, chunks: seq<ChunkEntry>) returns (buf: seq<byte>)
    ensures buf == Preimage(fileSha, chunks)
  {
    buf := fileSha;
    assert chunks[..0] == [];
    for i := 0 to |chunks|
      invariant buf == fileSha + EntriesBytes(Network, chunks[..i])
    {
      EntriesPush(Network, chunks[..i], chunks[i]);
      assert chunks[..i + 1] == chunks[..i] + [chunks[i]];
      buf := buf + Big(chunks[i].offset, 8);
      buf := buf + Big(chunks[i].length, 4);
      buf := buf + chunks[i].sha;
    }
    assert chunks[..|chunks|] == chunks;
  }

  lemma {:induction false} EntriesLength(o: Order, cs: seq<ChunkEntry>)
    requires forall i :: 0 <= i < |cs| ==> EntryOk(cs[i])
    ensures |EntriesBytes(o, cs)| == 44 * |cs|
  {
    if cs != [] { EntriesLength(o, cs[1..]); }
  }

  /** Two seeds have the same preimage exactly when they agree on file hash and chunk list; names and
      tracker play no part. */
  lemma PreimageInjective(a: Seed, b: Seed)
    requires SeedOk(a) && SeedOk(b)
    ensures Preimage(a.fileSha, a.chunks) == Preimage(b.fileSha, b.chunks) <==>
            a.fileSha == b.fileSha && a.chunks == b.chunks
  {
    if Preimage(a.fileSha, a.chunks) == Preimage(b.fileSha, b.chunks) {
      assert a.fileSha == Preimage(a.fileSha, a.chunks)[..32];
      assert b.fileSha == Preimage(b.fileSha, b.chunks)[..32];
      assert EntriesBytes(Network, a.chunks) == Preimage(a.fileSha, a.chunks)[32..];
      assert EntriesBytes(Network, b.chunks) == Preimage(b.fileSha, b.chunks)[32..];
      EntriesLength(Network, a.chunks);
      EntriesLength(Network, b.chunks);
      EntriesRoundTrip(Network, a.chunks, []);
      EntriesRoundTrip(Network, b.chunks, []);
    }
  }

  // ---------------------------------------------------------------- swapping in place

  /** A field's value after its bytes are reversed in memory. */
  function Swapped(v: nat, w: nat): nat { FromBig(Little(v, w)) }

  lemma {:induction false} LittleOfFromLittle(bs: seq<byte>)
    ensures FromLittle(bs) < Pow256(|bs|) && Little(FromLittle(bs), |bs|) == bs
  {
    if bs != [] {
      LittleOfFromLittle(bs[1..]);
      assert FromLittle(bs) % 256 == bs[0] && FromLittle(bs) / 256 == FromLittle(bs[1..]);
    }
  }

  /** Reading a field in host order and swapping it is reading it in network order. */
  lemma SwapReads(bs: seq<byte>)
    ensures Swapped(FromLittle(bs), |bs|) == FromBig(bs)
  {
    LittleOfFromLittle(bs);
  }
}
