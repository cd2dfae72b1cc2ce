/** The output file seen through mapped segments that overlap by one maximal chunk. */
module SegmentIo {
  import opened Counting
  import opened Assembly

  const MAX_CHUNK_SIZE: nat := 0x10_0000
  const NO_SEGMENT: nat := 0xFFFF_FFFF

  /** `static_cast<uint32_t>`. */
  function ToU32(x: nat): nat { x % 0x1_0000_0000 }

  /** What mmap gave out: the addresses from base on show the file from start on. */
  datatype View = View(base: nat, start: nat, size: nat)

  datatype Segment = Segment(data: nat, size: nat)

  predicate Shows(v: View, address: nat) { v.base <= address < v.base + v.size }

  ghost predicate AddressesApart(views: seq<View>) {
    forall i, j :: 0 <= i < j < |views| ==>
      views[i].base + views[i].size <= views[j].base || views[j].base + views[j].size <= views[i].base
  }

  /** The byte of the file an address shows. */
  ghost predicate ShowsByte(views: seq<View>, address: nat, position: nat) {
    exists i :: 0 <= i < |views| && Shows(views[i], address) && views[i].start + (address - views[i].base) == position
  }

  /** The addresses from base on show exactly the bytes [offset, offset + size) of the file. */
  ghost predicate ShowsRange(views: seq<View>, base: nat, offset: nat, size: nat) {
    forall k :: 0 <= k < size ==> ShowsKth(views, base, offset, k)
  }

  ghost predicate ShowsKth(views: seq<View>, base: nat, offset: nat, k: nat) {
    ShowsByte(views, base + k, offset + k)
  }

  lemma OneByte(views: seq<View>, address: nat, a: nat, b: nat)
    requires AddressesApart(views) && ShowsByte(views, address, a) && ShowsByte(views, address, b)
    ensures a == b
  {
    var i :| 0 <= i < |views| && Shows(views[i], address) && views[i].start + (address - views[i].base) == a;
    var j :| 0 <= j < |views| && Shows(views[j], address) && views[j].start + (address - views[j].base) == b;
  }

  /** mmap hands out addresses nobody has yet. */
  ghost predicate Unused(views: seq<View>, base: nat, size: nat) {
    forall i :: 0 <= i < |views| ==> views[i].base + views[i].size <= base || base + size <= views[i].base
  }

  function Min(a: nat, b: nat): nat { if a < b then a else b }

  function MapSize(fileSize: nat, segmentSize: nat, segment: nat): nat {
    if segment * segmentSize <= fileSize then Min(segmentSize + MAX_CHUNK_SIZE, fileSize - segment * segmentSize) else 0
  }

  /** A chunk of at most the maximal size that starts in a segment lies inside that segment's map. */
  lemma GuardCovers(fileSize: nat, segmentSize: nat, offset: nat, size: nat)
    requires segmentSize > 0 && offset + size <= fileSize && size <= MAX_CHUNK_SIZE
    ensures offset / segmentSize * segmentSize <= offset
    ensures offset - offset / segmentSize * segmentSize + size <= MapSize(fileSize, segmentSize, offset / segmentSize)
  {
    DivBounds(offset, segmentSize);
  }

  lemma StartsBefore(segmentSize: nat, offset: nat, index: nat)
    requires segmentSize > 0 && index == ToU32(offset / segmentSize)
    ensures index * segmentSize <= offset
  {
    DivBounds(offset, segmentSize);
    MulMonotone(index, offset / segmentSize, segmentSize);
  }

  lemma SegmentExists(fileSize: nat, segmentSize: nat, offset: nat)
    requires segmentSize > 0 && offset < fileSize <= NO_SEGMENT * segmentSize
    ensures offset / segmentSize < Slots(fileSize, segmentSize) <= NO_SEGMENT
  {
    SlotInRange(fileSize, segmentSize, offset);
    SlotStartsInside(fileSize, segmentSize, NO_SEGMENT);
  }

  lemma IndexInRange(fileSize: nat, segmentSize: nat, offset: nat)
    requires segmentSize > 0 && offset < fileSize <= NO_SEGMENT * segmentSize
    ensures ToU32(offset / segmentSize) < ToU32(Slots(fileSize, segmentSize))
  {
    SegmentExists(fileSize, segmentSize, offset);
  }

  /** The truncated index starts at or before the chunk; without truncation the guard check passes. */
  lemma ChunkInSegment(fileSize: nat, segmentSize: nat, offset: nat, size: nat, index: nat)
    requires segmentSize > 0 && offset + size <= fileSize && size <= MAX_CHUNK_SIZE
    requires index == ToU32(offset / segmentSize)
    ensures index * segmentSize <= offset
    ensures fileSize <= NO_SEGMENT * segmentSize && size > 0 ==>
              offset - index * segmentSize + size <= MapSize(fileSize, segmentSize, index)
  {
    StartsBefore(segmentSize, offset, index);
    if fileSize <= NO_SEGMENT * segmentSize && size > 0 {
      SegmentExists(fileSize, segmentSize, offset);
      GuardCovers(fileSize, segmentSize, offset, size);
    }
  }

  lemma SegmentStartsInside(fileSize: nat, segmentSize: nat, segment: nat)
    requires segmentSize > 0 && segment < ToU32(Slots(fileSize, segmentSize))
    ensures segment * segmentSize < fileSize
  {
    SlotStartsInside(fileSize, segmentSize, segment);
  }

  lemma OneMoreView(views: seq<View>, view: View, room: nat)
    requires AddressesApart(views) && Unused(views, view.base, room) && view.size <= room
    ensures AddressesApart(views + [view])
  {
  }

  /** The view behind a mapped segment is alive. */
  ghost predicate Backed(fileSize: nat, segmentSize: nat, views: seq<View>, segment: nat, s: Segment) {
    s.size == MapSize(fileSize, segmentSize, segment) && View(s.data, segment * segmentSize, s.size) in views
  }

  ghost predicate AllBacked(fileSize: nat, segmentSize: nat, count: nat, mapped: map<nat, Segment>, views: seq<View>) {
    forall i | i in mapped :: i < count && Backed(fileSize, segmentSize, views, i, mapped[i])
  }

  /** Only views are added, at most one, and that at the given address. */
  ghost predicate OneViewMore(before: seq<View>, after: seq<View>, address: Option<nat>, room: nat) {
    || after == before
    || (address.Some? && exists v :: after == before + [v] && v.base == address.value && v.size <= room)
  }

  /** One more segment mapped at an unused address. */
  lemma SegmentMapped(fileSize: nat, segmentSize: nat, count: nat, mapped: map<nat, Segment>, views: seq<View>,
                      segment: nat, base: nat) returns (size: nat, after: seq<View>)
    requires segmentSize > 0 && segment < count == ToU32(Slots(fileSize, segmentSize))
    requires AddressesApart(views) && Unused(views, base, segmentSize + MAX_CHUNK_SIZE)
    requires AllBacked(fileSize, segmentSize, count, mapped, views)
    ensures segment * segmentSize < fileSize
    ensures size == Min(segmentSize + MAX_CHUNK_SIZE, fileSize - segment * segmentSize)
    ensures after == views + [View(base, segment * segmentSize, size)] && AddressesApart(after)
    ensures OneViewMore(views, after, Some(base), segmentSize + MAX_CHUNK_SIZE)
    ensures AllBacked(fileSize, segmentSize, count, mapped[segment := Segment(base, size)], after)
  {
    SegmentStartsInside(fileSize, segmentSize, segment);
    size := MapSize(fileSize, segmentSize, segment);
    var view := View(base, segment * segmentSize, size);
    after := views + [view];
    OneMoreView(views, view, segmentSize + MAX_CHUNK_SIZE);
    assert view in after by { assert after[|views|] == view; }
    assert forall v | v in views :: v in after;
  }

  /** Where a range lies inside the mapped segment that it starts in. */
  lemma RangeInSegment(fileSize: nat, segmentSize: nat, views: seq<View>, index: nat, segment: Segment, offset: nat,
                       size: nat)
    requires segmentSize > 0 && offset + size <= fileSize && size <= MAX_CHUNK_SIZE
    requires index == ToU32(offset / segmentSize) && Backed(fileSize, segmentSize, views, index, segment)
    ensures index * segmentSize <= offset
    ensures var inside := offset - index * segmentSize;
            && (fileSize <= NO_SEGMENT * segmentSize && size > 0 ==> inside + size <= segment.size)
            && (inside + size <= segment.size ==> ShowsRange(views, segment.data + inside, offset, size))
  {
    ChunkInSegment(fileSize, segmentSize, offset, size, index);
    var start := index * segmentSize;
    var inside := offset - start;
    if inside + size <= segment.size { InsideView(views, View(segment.data, start, segment.size), inside, size); }
  }

  class SegmentWriter {
    var isOpen: bool
    var fileSize: nat
    var segmentSize: nat
    var segmentCount: nat
    var mapped: map<nat, Segment>
    var cachedIndex: nat
    var cached: Option<Segment>
    ghost var views: seq<View>   // every mapping of the file alive

    ghost predicate Valid()
      reads this
    {
      && AddressesApart(views)
      && (isOpen ==> fileSize > 0 && segmentSize >= MAX_CHUNK_SIZE &&
                     segmentCount == ToU32(Slots(fileSize, segmentSize)))
      && AllBacked(fileSize, segmentSize, segmentCount, mapped, views)
      && (cachedIndex != NO_SEGMENT ==> cachedIndex in mapped && cached == Some(mapped[cachedIndex]))
    }

    /** A chunk that any file of fewer than 2^32 segments has room for. */
    ghost predicate Accepts(offset: nat, size: nat)
      reads this
    {
      isOpen && 0 < size <= MAX_CHUNK_SIZE && offset + size <= fileSize <= NO_SEGMENT * segmentSize
    }

    constructor ()
      ensures Valid() && !isOpen && views == []
    {
      isOpen, fileSize, segmentSize, segmentCount := false, 0, 0, 0;
      mapped, cachedIndex, cached, views := map[], NO_SEGMENT, None, [];
    }

    /** The file could be created and sized, or not. */
    method Open(size: nat, segment: nat, created: bool) returns (ok: bool)
      requires Valid() && !isOpen && mapped == map[] && cachedIndex == NO_SEGMENT
      modifies this
      ensures Valid() && views == old(views)
      ensures ok <==> size > 0 && created
      ensures ok ==> isOpen && fileSize == size
      ensures ok ==> segmentSize == if segment < MAX_CHUNK_SIZE then MAX_CHUNK_SIZE else segment
      ensures !ok ==> !isOpen
    {
      if size == 0 {
        return false;
      }
      fileSize := size;
      segmentSize := if segment < MAX_CHUNK_SIZE then MAX_CHUNK_SIZE else segment;
      segmentCount := ToU32((fileSize + segmentSize - 1) / segmentSize);
      if !created {
        return false;
      }
      isOpen := true;
      return true;
    }

    method MapSegment(segment: nat, address: Option<nat>) returns (ok: bool)
      requires Valid() && isOpen && segment < segmentCount && segment !in mapped
      requires address.Some? ==> Unused(views, address.value, segmentSize + MAX_CHUNK_SIZE)
      modifies `mapped, `views
      ensures Valid() && OneViewMore(old(views), views, address, segmentSize + MAX_CHUNK_SIZE)
      ensures ok == address.Some?
      ensures if ok then segment in mapped && mapped == old(mapped)[segment := mapped[segment]]
              else mapped == old(mapped)
    {
      if address.None? {
        return false;
      }
      ghost var room, after := SegmentMapped(fileSize, segmentSize, segmentCount,
        mapped, views, segment, address.value);
      var start := segment * segmentSize;
      var size := Min(segmentSize + MAX_CHUNK_SIZE, fileSize - start);
      views := after;
      mapped := mapped[segment := Segment(address.value, size)];
      return true;
    }

    /** A base is returned only for a range inside the file that is no longer than the maximal chunk,
        and then it shows exactly that range; such a range is refused only when mmap fails, as long as
        the file has fewer than 2^32 segments. Mappings made earlier stay, and at most one is added. */
    method GetChunkBase(offset: nat, size: nat, address: Option<nat>) returns (base: Option<nat>)
      requires Valid()
      requires address.Some? ==> Unused(views, address.value, segmentSize + MAX_CHUNK_SIZE)
      modifies this
      ensures Valid() && OneViewMore(old(views), views, address, segmentSize + MAX_CHUNK_SIZE)
      ensures isOpen == old(isOpen) && fileSize == old(fileSize) && segmentSize == old(segmentSize)
      ensures base.Some? ==> isOpen && offset + size <= fileSize && size <= MAX_CHUNK_SIZE
      ensures base.Some? ==> ShowsRange(views, base.value, offset, size)
      ensures old(Accepts(offset, size)) && address.Some? ==> base.Some?
    {
      if !isOpen || offset + size > fileSize || size > MAX_CHUNK_SIZE {
        return None;
      }
      var index := ToU32(offset / segmentSize);
      if Accepts(offset, size) { IndexInRange(fileSize, segmentSize, offset); }
      if index >= segmentCount {
        return None;
      }
      var segment := Lookup(index, address);
      if segment.None? {
        return None;
      }
      base := Locate(index, segment.value, offset, size);
    }

    /** The mapped segment: the one used last, one mapped before, or a new mapping. */
    method Lookup(index: nat, address: Option<nat>) returns (segment: Option<Segment>)
      requires Valid() && isOpen && index < segmentCount
      requires address.Some? ==> Unused(views, address.value, segmentSize + MAX_CHUNK_SIZE)
      modifies `mapped, `views, `cachedIndex, `cached
      ensures Valid() && OneViewMore(old(views), views, address, segmentSize + MAX_CHUNK_SIZE)
      ensures segment.Some? ==> index in mapped && mapped[index] == segment.value
      ensures address.Some? ==> segment.Some?
    {
      if index == cachedIndex {
        return cached;
      }
      if index !in mapped {
        var ok := MapSegment(index, address);
        if !ok {
          return None;
        }
      }
      cachedIndex, cached := index, Some(mapped[index]);
      return cached;
    }

    /** The address of the range inside a mapped segment, behind the guard check. */
    method Locate(index: nat, segment: Segment, offset: nat, size: nat) returns (base: Option<nat>)
      requires Valid() && isOpen && offset + size <= fileSize && size <= MAX_CHUNK_SIZE
      requires index in mapped && mapped[index] == segment && index == ToU32(offset / segmentSize)
      ensures base.Some? ==> ShowsRange(views, base.value, offset, size)
      ensures Accepts(offset, size) ==> base.Some?
    {
      RangeInSegment(fileSize, segmentSize, views, index, segment, offset, size);
      var start := index * segmentSize;
      var inside := offset - start;
      if inside + size > segment.size {
        return None;
      }
      return Some(segment.data + inside);
    }

    method Close()
      requires Valid()
      modifies this
      ensures Valid() && !isOpen && mapped == map[] && cachedIndex == NO_SEGMENT && views == []
    {
      cached, cachedIndex, mapped, views := None, NO_SEGMENT, map[], [];
      isOpen, fileSize, segmentSize, segmentCount := false, 0, 0, 0;
    }
  }

  lemma InsideView(views: seq<View>, v: View, inside: nat, size: nat)
    requires v in views && inside + size <= v.size
    ensures ShowsRange(views, v.base + inside, v.start + inside, size)
  {
    var i :| 0 <= i < |views| && views[i] == v;
    var base, start := v.base + inside, v.start + inside;
    forall k | 0 <= k < size ensures ShowsKth(views, base, start, k) {
      assert Shows(views[i], base + k);
    }
  }

  /** A base stays good while mappings are only added. */
  lemma BaseStaysValid(before: seq<View>, after: seq<View>, base: nat, offset: nat, size: nat)
    requires before <= after && ShowsRange(before, base, offset, size)
    ensures ShowsRange(after, base, offset, size)
  {
    forall k | 0 <= k < size ensures ShowsKth(after, base, offset, k) {
      assert ShowsKth(before, base, offset, k);
      var i :| 0 <= i < |before| && Shows(before[i], base + k)
        && before[i].start + (base + k - before[i].base) == offset + k;
      assert after[i] == before[i];
    }
  }

  // ---------------------------------------------------------------- writing through a base

  /** The file after a store through one address: the byte it shows changes, wherever else that byte
      may also be mapped. */
  ghost predicate Stores(views: seq<View>, file: seq<byte>, address: nat, b: byte, file': seq<byte>) {
    |file'| == |file|
    && forall p :: 0 <= p < |file| ==> file'[p] == if ShowsByte(views, address, p) then b else file[p]
  }

  lemma StoreHits(views: seq<View>, file: seq<byte>, base: nat, offset: nat, size: nat, k: nat, b: byte,
                  file': seq<byte>)
    requires AddressesApart(views) && ShowsRange(views, base, offset, size) && offset + size <= |file| && k < size
    requires Stores(views, file, base + k, b, file')
    ensures file' == file[offset + k := b]
  {
    assert ShowsKth(views, base, offset, k);
    forall p | 0 <= p < |file| ensures file'[p] == file[offset + k := b][p] {
      if ShowsByte(views, base + k, p) { OneByte(views, base + k, p, offset + k); }
    }
  }

  /** Stores through a chunk's base leave every range that is disjoint from the chunk alone, even when
      both are reached through overlapping mappings. */
  lemma DisjointChunksStayApart(views: seq<View>, file: seq<byte>, base: nat, offset: nat, size: nat, k: nat, b: byte,
                                file': seq<byte>, other: nat, length: nat)
    requires AddressesApart(views) && ShowsRange(views, base, offset, size) && offset + size <= |file| && k < size
    requires Stores(views, file, base + k, b, file')
    requires other + length <= |file| && (other + length <= offset || offset + size <= other)
    ensures file'[other..other + length] == file[other..other + length]
  {
    StoreHits(views, file, base, offset, size, k, b, file');
  }
}
