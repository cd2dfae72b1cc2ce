/** Unsigned integers as bytes, most significant byte first (network order) or last (host order). */
module ByteOrder {
  import opened Assembly

  function Pow256(w: nat): (r: nat)
    ensures r > 0
  {
    if w == 0 then 1 else 256 * Pow256(w - 1)
  }

  function Big(n: nat, w: nat): (r: seq<byte>)
    ensures |r| == w
  {
    if w == 0 then [] else Big(n / 256, w - 1) + [n % 256]
  }

  function FromBig(bs: seq<byte>): nat {
    if bs == [] then 0 else FromBig(bs[..|bs| - 1]) * 256 + bs[|bs| - 1]
  }

  function Little(n: nat, w: nat): (r: seq<byte>)
    ensures |r| == w
  {
    if w == 0 then [] else [n % 256] + Little(n / 256, w - 1)
  }

  function FromLittle(bs: seq<byte>): nat {
    if bs == [] then 0 else bs[0] + FromLittle(bs[1..]) * 256
  }

  lemma {:induction false} FromBigOfBig(n: nat, w: nat)
    requires n < Pow256(w)
    ensures FromBig(Big(n, w)) == n
  {
    if w > 0 {
      assert Big(n, w)[..w - 1] == Big(n / 256, w - 1);
      FromBigOfBig(n / 256, w - 1);
    }
  }

  lemma {:induction false} BigOfFromBig(bs: seq<byte>)
    ensures FromBig(bs) < Pow256(|bs|) && Big(FromBig(bs), |bs|) == bs
  {
    if bs != [] {
      var init := bs[..|bs| - 1];
      BigOfFromBig(init);
      assert FromBig(bs) / 256 == FromBig(init) && FromBig(bs) % 256 == bs[|bs| - 1];
      assert bs == init + [bs[|bs| - 1]];
    }
  }

  lemma {:induction false} FromLittleOfLittle(n: nat, w: nat)
    requires n < Pow256(w)
    ensures FromLittle(Little(n, w)) == n
  {
    if w > 0 {
      assert Little(n, w)[1..] == Little(n / 256, w - 1);
      FromLittleOfLittle(n / 256, w - 1);
    }
  }

  const U16: nat := 0x1_0000
  const U32: nat := 0x1_0000_0000
  const U64: nat := 0x1_0000_0000_0000_0000

  lemma Widths()
    ensures Pow256(2) == U16 && Pow256(4) == U32 && Pow256(8) == U64
  {
    assert Pow256(1) == 256;
    assert Pow256(3) == 256 * Pow256(2);
    assert Pow256(5) == 256 * Pow256(4);
    assert Pow256(6) == 256 * Pow256(5);
    assert Pow256(7) == 256 * Pow256(6);
  }
}
