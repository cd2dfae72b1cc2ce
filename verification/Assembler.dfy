/** A chunk being put together from its sub-blocks: a bit mask of the slots that arrived and a
    countdown of the slots still missing. */
module Assembly {

  type byte = x: int | 0 <= x < 256

  const SUB_BLOCK_SIZE: nat := 16384

  // ---------------------------------------------------------------- bits of a mask word

  predicate Bit(v: nat, k: nat) {
    if k == 0 then v % 2 == 1 else Bit(v / 2, k - 1)
  }

  /** `v | (1 << k)`. */
  function OrBit(v: nat, k: nat): nat {
    if k == 0 then (if v % 2 == 1 then v else v + 1) else 2 * OrBit(v / 2, k - 1) + v % 2
  }

  lemma {:induction false} OrBitSets(v: nat, k: nat, j: nat)
    ensures Bit(OrBit(v, k), j) <==> j == k || Bit(v, j)
  {
    if k > 0 {
      assert OrBit(v, k) / 2 == OrBit(v / 2, k - 1) && OrBit(v, k) % 2 == v % 2;
      if j > 0 { OrBitSets(v / 2, k - 1, j - 1); }
    } else if j > 0 {
      assert OrBit(v, 0) / 2 == v / 2;
    }
  }

  lemma {:induction false} ZeroHasNoBit(k: nat)
    ensures !Bit(0, k)
  {
    if k > 0 { ZeroHasNoBit(k - 1); }
  }

  // ---------------------------------------------------------------- slots

  function Slots(size: nat, block: nat): nat
    requires block > 0
  {
    (size + block - 1) / block
  }

  function SlotLength(size: nat, block: nat, slot: nat): nat
    requires block > 0
  {
    if slot * block >= size then 0 else if size - slot * block < block then size - slot * block else block
  }

  lemma DivBounds(a: nat, d: nat)
    requires d > 0
    ensures 0 <= a / d && a / d * d <= a < a / d * d + d
  {
    assert a == a / d * d + a % d;
  }

  lemma MulMonotone(a: nat, b: nat, d: nat)
    requires a <= b
    ensures a * d <= b * d
  {
  }

  /** The slots of a chunk are exactly those that start inside it. */
  lemma SlotStartsInside(size: nat, block: nat, slot: nat)
    requires block > 0
    ensures slot < Slots(size, block) <==> slot * block < size
  {
    var n := Slots(size, block);
    DivBounds(size + block - 1, block);
    if slot < n {
      MulMonotone(slot + 1, n, block);
      assert (slot + 1) * block == slot * block + block;
    } else {
      MulMonotone(n, slot, block);
    }
  }

  lemma SlotInRange(size: nat, block: nat, begin: nat)
    requires block > 0 && begin < size
    ensures begin / block < Slots(size, block)
  {
    DivBounds(begin, block);
    SlotStartsInside(size, block, begin / block);
  }

  datatype SubBlock = SubBlock(begin: nat, length: nat)

  function AllSlots(n: nat): (r: set<nat>)
    ensures |r| == n && forall i: nat :: i in r <==> i < n
  {
    if n == 0 then {} else AllSlots(n - 1) + {n - 1}
  }

  lemma FullWhenCounted(marked: set<nat>, n: nat)
    requires marked <= AllSlots(n)
    ensures |marked| <= n
    ensures |marked| == n <==> marked == AllSlots(n)
  {
    var rest := AllSlots(n) - marked;
    assert AllSlots(n) == marked + rest && marked !! rest;
  }

  lemma RoomForOneMore(marked: set<nat>, slot: nat, n: nat)
    requires slot < n && slot !in marked && forall i | i in marked :: i < n
    ensures |marked + {slot}| == |marked| + 1 <= n
  {
    FullWhenCounted(marked + {slot}, n);
  }

  /** The bytes of mem with data written at begin. */
  function Overwrite(mem: seq<byte>, begin: nat, data: seq<byte>): (r: seq<byte>)
    requires begin + |data| <= |mem|
    ensures |r| == |mem|
  {
    mem[..begin] + data + mem[begin + |data|..]
  }

  /** One chunk's region, marked slots and countdown. */
  datatype Asm = Asm(mem: seq<byte>, marked: set<nat>, pending: nat)

  /** `fetch_sub(1)` on a 32-bit counter. */
  function CountedDown(pending: nat): nat { if pending == 0 then 0xFFFF_FFFF else pending - 1 }

  /** The chunk after the piece is written and its slot marked, and whether that was the last slot. */
  function Stored(a: Asm, slot: nat, begin: nat, data: seq<byte>): (r: (Asm, bool))
    requires begin + |data| <= |a.mem|
    ensures |r.0.mem| == |a.mem|
  {
    var mem := Overwrite(a.mem, begin, data);
    if slot in a.marked then (a.(mem := mem), false)
    else (Asm(mem, a.marked + {slot}, CountedDown(a.pending)), a.pending == 1)
  }

  /** `on_piece` on a mapped chunk, from start to finish. */
  function Receive(a: Asm, block: nat, begin: nat, data: seq<byte>): (r: (Asm, bool))
    requires block > 0
    ensures |r.0.mem| == |a.mem|
  {
    if begin + |data| > |a.mem| then (a, false) else Stored(a, begin / block, begin, data)
  }

  /** The call that marks the last missing slot is the one that returns true. */
  lemma ReceiveFinishes(a: Asm, block: nat, begin: nat, data: seq<byte>)
    requires block > 0 && |data| > 0
    requires a.marked <= AllSlots(Slots(|a.mem|, block)) && a.pending == Slots(|a.mem|, block) - |a.marked|
    ensures var (r, complete) := Receive(a, block, begin, data);
            && r.marked <= AllSlots(Slots(|a.mem|, block)) && r.pending == Slots(|a.mem|, block) - |r.marked|
            && (complete <==> r.marked != a.marked && r.marked == AllSlots(Slots(|a.mem|, block)))
  {
    var (r, complete) := Receive(a, block, begin, data);
    if begin + |data| <= |a.mem| {
      SlotInRange(|a.mem|, block, begin);
      FullWhenCounted(r.marked, Slots(|a.mem|, block));
    }
  }

  ghost predicate MaskWide(mask: seq<nat>, n: nat) { n <= 32 * |mask| }

  /** The slots whose bit is set in the mask. */
  ghost function MarkedIn(mask: seq<nat>, n: nat): set<nat>
    requires MaskWide(mask, n)
  {
    set i | 0 <= i < n && Bit(mask[i / 32], i % 32)
  }

  lemma MarkOneMore(mask: seq<nat>, n: nat, slot: nat)
    requires MaskWide(mask, n) && slot < n
    ensures MarkedIn(mask[slot / 32 := OrBit(mask[slot / 32], slot % 32)], n) == MarkedIn(mask, n) + {slot}
  {
    var mask' := mask[slot / 32 := OrBit(mask[slot / 32], slot % 32)];
    forall i | 0 <= i < n ensures Bit(mask'[i / 32], i % 32) <==> i == slot || Bit(mask[i / 32], i % 32) {
      if i / 32 == slot / 32 {
        OrBitSets(mask[slot / 32], slot % 32, i % 32);
        assert i % 32 == slot % 32 <==> i == slot;
      }
    }
  }

  class ChunkAssembler {
    var base: array?<byte>
    var chunkSize: nat
    var subBlockSize: nat
    var totalSlots: nat
    var mask: seq<nat>
    var pendingCount: nat
    var subBlocks: seq<SubBlock>

    ghost predicate Valid()
      reads this
    {
      && subBlockSize > 0
      && totalSlots == Slots(chunkSize, subBlockSize)
      && MaskWide(mask, totalSlots)
      && pendingCount == totalSlots - |MarkedIn(mask, totalSlots)|
      && (base != null ==> base.Length == chunkSize)
    }

    ghost function Marked(): set<nat>
      requires Valid()
      reads this
    {
      MarkedIn(mask, totalSlots)
    }

    ghost function View(): Asm
      requires Valid() && base != null
      reads this, base
    {
      Asm(base[..], Marked(), pendingCount)
    }

    /** The mapped region is the chunk's own bytes; a seeding task passes no region. Sizes are far
        below the 32-bit limit. */
    constructor (region: array?<byte>, size: nat, block: nat)
      requires block > 0 && size + block <= 0x1_0000_0000
      requires region != null ==> region.Length == size
      ensures Valid() && base == region && chunkSize == size && subBlockSize == block
      ensures Marked() == {}
      ensures |subBlocks| == totalSlots
      ensures forall i :: 0 <= i < totalSlots ==> subBlocks[i] == SubBlock(i * block, SlotLength(size, block, i))
    {
      base := region;
      chunkSize := size;
      subBlockSize := block;
      var total := (size + block - 1) / block;
      var words := (total + 31) / 32;
      totalSlots := total;
      mask := seq(words, _ => 0);
      pendingCount := total;
      subBlocks := [];
      new;
      for i := 0 to total
        invariant base == region && chunkSize == size && subBlockSize == block && totalSlots == total
        invariant mask == seq(words, _ => 0) && pendingCount == totalSlots
        invariant |subBlocks| == i
        invariant forall k :: 0 <= k < i ==> subBlocks[k] == SubBlock(k * block, SlotLength(size, block, k))
      {
        SlotStartsInside(size, block, i);
        var begin := i * block;
        subBlocks := subBlocks + [SubBlock(begin, if block < size - begin then block else size - begin)];
      }
      forall i | 0 <= i < totalSlots ensures !Bit(mask[i / 32], i % 32) {
        ZeroHasNoBit(i % 32);
      }
      assert MarkedIn(mask, totalSlots) == {};
    }

    method Copy(begin: nat, data: seq<byte>)
      requires base != null && begin + |data| <= base.Length
      modifies base
      ensures base[..] == Overwrite(old(base[..]), begin, data)
    {
      ghost var mem := base[..];
      for k := 0 to |data|
        invariant forall i :: 0 <= i < base.Length ==>
                    base[i] == if begin <= i < begin + k then data[i - begin] else mem[i]
      {
        base[begin + k] := data[k];
      }
      assert base[..] == Overwrite(mem, begin, data);
    }

    /** `completed_mask_[slot / 32].fetch_or(1 << slot % 32)`. */
    method FetchOr(slot: nat) returns (first: bool)
      requires MaskWide(mask, totalSlots) && slot < totalSlots
      modifies `mask
      ensures MaskWide(mask, totalSlots) && MarkedIn(mask, totalSlots) == old(MarkedIn(mask, totalSlots)) + {slot}
      ensures first <==> slot !in old(MarkedIn(mask, totalSlots))
    {
      MarkOneMore(mask, totalSlots, slot);
      var word := slot / 32;
      first := !Bit(mask[word], slot % 32);
      mask := mask[word := OrBit(mask[word], slot % 32)];
    }

    /** A piece that finds no region changes nothing. */
    method OnPiece(begin: nat, data: seq<byte>) returns (complete: bool)
      requires Valid() && |data| > 0
      modifies this, base
      ensures Valid() && base == old(base) && chunkSize == old(chunkSize) && subBlockSize == old(subBlockSize)
      ensures base == null ==> !complete && Marked() == old(Marked())
      ensures base != null ==> (View(), complete) == Receive(old(View()), subBlockSize, begin, data)
    {
      var slot := begin / subBlockSize;
      if base == null {
        return false;
      }
      if begin + |data| > chunkSize {
        return false;
      }
      SlotInRange(chunkSize, subBlockSize, begin);
      complete := Store(slot, begin, data);
    }

    method Store(slot: nat, begin: nat, data: seq<byte>) returns (complete: bool)
      requires Valid() && base != null && begin + |data| <= base.Length && slot < totalSlots
      modifies `mask, `pendingCount, base
      ensures Valid() && (View(), complete) == Stored(old(View()), slot, begin, data)
    {
      Copy(begin, data);
      ghost var before := MarkedIn(mask, totalSlots);
      var first := FetchOr(slot);
      if !first {
        assert before + {slot} == before;
        return false;
      }
      RoomForOneMore(before, slot, totalSlots);
      var left := pendingCount;
      pendingCount := pendingCount - 1;
      return left == 1;
    }

    method IsComplete() returns (r: bool)
      requires Valid()
      ensures r <==> Marked() == AllSlots(totalSlots)
    {
      FullWhenCounted(Marked(), totalSlots);
      return pendingCount == 0;
    }
  }

  // ---------------------------------------------------------------- the sub-block table

  function SlotSum(size: nat, block: nat, k: nat): nat
    requires block > 0
  {
    if k == 0 then 0 else SlotSum(size, block, k - 1) + SlotLength(size, block, k - 1)
  }

  lemma {:induction false} SlotSumIs(size: nat, block: nat, k: nat)
    requires block > 0 && k <= Slots(size, block)
    ensures SlotSum(size, block, k) == if k * block < size then k * block else size
  {
    if k > 0 {
      SlotSumIs(size, block, k - 1);
      SlotStartsInside(size, block, k - 1);
      assert k * block == (k - 1) * block + block;
    }
  }

  /** The slots are non-empty, never longer than a block, and together as long as the chunk. */
  lemma SlotsTile(size: nat, block: nat)
    requires block > 0
    ensures SlotSum(size, block, Slots(size, block)) == size
    ensures forall i :: 0 <= i < Slots(size, block) ==> 0 < SlotLength(size, block, i) <= block
  {
    SlotSumIs(size, block, Slots(size, block));
    SlotStartsInside(size, block, Slots(size, block));
    forall i | 0 <= i < Slots(size, block) ensures 0 < SlotLength(size, block, i) <= block {
      SlotStartsInside(size, block, i);
    }
  }
}
