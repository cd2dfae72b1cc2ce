/** The gear table the program actually builds, and what that means for its chunking. */
module GearTable {
  import opened Assembly
  import opened FastCdc

  const GEAR_SEED: bv64 := 0x9E37_79B1_85EB_CA87

  function NextSeed(seed: bv64): bv64 { (seed ^ (seed >> 12)) * 0x2545_F491_4F6C_DD1D }

  /** The seed after n rounds; round n makes entry n - 1. */
  function Seed(n: nat): bv64 { if n == 0 then GEAR_SEED else NextSeed(Seed(n - 1)) }

  function GearUpTo(n: nat): (r: seq<bv64>)
    ensures |r| == n && forall i :: 0 <= i < n ==> r[i] == Seed(i + 1)
  {
    if n == 0 then [] else GearUpTo(n - 1) + [Seed(n)]
  }

  function Gear(): seq<bv64> { GearUpTo(256) }

  method BuildGear() returns (arr: seq<bv64>)
    ensures arr == Gear()
  {
    arr := [];
    var seed := GEAR_SEED;
    for i := 0 to 256
      invariant arr == GearUpTo(i) && seed == Seed(i)
    {
      seed := NextSeed(seed);
      arr := arr + [seed];
    }
  }

  // ---------------------------------------------------------------- no entry is zero on bits 1 to 8

  /** One of the bits 1 to 8 is set, and one of the bits 0 to 7. */
  predicate Busy(g: bv64) { Live(g, 0x1FF) && g & 0xFF != 0 }

  /** k rounds lead from a to b, and each makes a busy entry. */
  predicate Rounds(a: bv64, k: nat, b: bv64)
    decreases k
  {
    if k == 0 then a == b else Busy(NextSeed(a)) && Rounds(NextSeed(a), k - 1, b)
  }

  ghost predicate LiveTo(n: nat) { n == 0 || (Busy(Seed(n)) && LiveTo(n - 1)) }

  lemma {:induction false} Extend(n: nat, a: bv64, k: nat, b: bv64)
    requires Seed(n) == a && LiveTo(n) && Rounds(a, k, b)
    ensures Seed(n + k) == b && LiveTo(n + k)
    decreases k
  {
    if k > 0 { Extend(n + 1, NextSeed(a), k - 1, b); }
  }

  // The table, eight rounds at a time.
  lemma Rounds0() ensures Rounds(0x9E37_79B1_85EB_CA87, 8, 0xF980_6FCD_4BFA_2447) {}
  lemma Rounds8() ensures Rounds(0xF980_6FCD_4BFA_2447, 8, 0x01F5_6263_A6C8_A1C8) {}
  lemma Rounds16() ensures Rounds(0x01F5_6263_A6C8_A1C8, 8, 0x1EF7_E89D_64B7_5FD4) {}
  lemma Rounds24() ensures Rounds(0x1EF7_E89D_64B7_5FD4, 8, 0x64BF_F540_8A5E_24BF) {}
  lemma Rounds32() ensures Rounds(0x64BF_F540_8A5E_24BF, 8, 0x245A_8E35_3EAB_724C) {}
  lemma Rounds40() ensures Rounds(0x245A_8E35_3EAB_724C, 8, 0xEE71_CDAB_1125_CC10) {}
  lemma Rounds48() ensures Rounds(0xEE71_CDAB_1125_CC10, 8, 0x7AA6_CD7C_14DB_0D50) {}
  lemma Rounds56() ensures Rounds(0x7AA6_CD7C_14DB_0D50, 8, 0x56B7_B6F4_567F_02EB) {}
  lemma Rounds64() ensures Rounds(0x56B7_B6F4_567F_02EB, 8, 0x8A12_2913_8F54_F49F) {}
  lemma Rounds72() ensures Rounds(0x8A12_2913_8F54_F49F, 8, 0xCA38_7491_C1F7_C5D3) {}
  lemma Rounds80() ensures Rounds(0xCA38_7491_C1F7_C5D3, 8, 0xBB9F_A7A6_AECE_6808) {}
  lemma Rounds88() ensures Rounds(0xBB9F_A7A6_AECE_6808, 8, 0xB6A3_346D_0C15_3223) {}
  lemma Rounds96() ensures Rounds(0xB6A3_346D_0C15_3223, 8, 0xC451_11C8_1857_3C6F) {}
  lemma Rounds104() ensures Rounds(0xC451_11C8_1857_3C6F, 8, 0x5DFA_68E7_B32B_5FB4) {}
  lemma Rounds112() ensures Rounds(0x5DFA_68E7_B32B_5FB4, 8, 0x4F1D_8EC9_261F_2923) {}
  lemma Rounds120() ensures Rounds(0x4F1D_8EC9_261F_2923, 8, 0x4E2B_111C_CD09_2C31) {}
  lemma Rounds128() ensures Rounds(0x4E2B_111C_CD09_2C31, 8, 0x6AA9_E080_4DCD_E1CD) {}
  lemma Rounds136() ensures Rounds(0x6AA9_E080_4DCD_E1CD, 8, 0x480C_CB7E_4395_2199) {}
  lemma Rounds144() ensures Rounds(0x480C_CB7E_4395_2199, 8, 0xD5B8_5847_FBC9_A2D5) {}
  lemma Rounds152() ensures Rounds(0xD5B8_5847_FBC9_A2D5, 8, 0x124C_CCB4_93BE_4D9F) {}
  lemma Rounds160() ensures Rounds(0x124C_CCB4_93BE_4D9F, 8, 0xABD2_5C4F_7568_FEFF) {}
  lemma Rounds168() ensures Rounds(0xABD2_5C4F_7568_FEFF, 8, 0x04D5_4911_59DC_E38C) {}
  lemma Rounds176() ensures Rounds(0x04D5_4911_59DC_E38C, 8, 0x05D7_F543_4ABB_9B1E) {}
  lemma Rounds184() ensures Rounds(0x05D7_F543_4ABB_9B1E, 8, 0xF9FD_F986_7A5C_475F) {}
  lemma Rounds192() ensures Rounds(0xF9FD_F986_7A5C_475F, 8, 0x73DC_E598_F1E0_CC0A) {}
  lemma Rounds200() ensures Rounds(0x73DC_E598_F1E0_CC0A, 8, 0x5CF6_29D9_5373_8D61) {}
  lemma Rounds208() ensures Rounds(0x5CF6_29D9_5373_8D61, 8, 0x05EE_9B29_D8F3_1232) {}
  lemma Rounds216() ensures Rounds(0x05EE_9B29_D8F3_1232, 8, 0x74CF_5A63_285B_FBFD) {}
  lemma Rounds224() ensures Rounds(0x74CF_5A63_285B_FBFD, 8, 0x06F0_AC77_6934_9E93) {}
  lemma Rounds232() ensures Rounds(0x06F0_AC77_6934_9E93, 8, 0x3210_7FA5_B491_772D) {}
  lemma Rounds240() ensures Rounds(0x3210_7FA5_B491_772D, 8, 0x45C0_7EFB_3413_67AA) {}
  lemma Rounds248() ensures Rounds(0x45C0_7EFB_3413_67AA, 8, 0x1824_BBA0_72F4_2090) {}

  lemma Live64()
    ensures Seed(64) == 0x56B7_B6F4_567F_02EB && LiveTo(64)
  {
    Rounds0(); Extend(0, 0x9E37_79B1_85EB_CA87, 8, 0xF980_6FCD_4BFA_2447);
    Rounds8(); Extend(8, 0xF980_6FCD_4BFA_2447, 8, 0x01F5_6263_A6C8_A1C8);
    Rounds16(); Extend(16, 0x01F5_6263_A6C8_A1C8, 8, 0x1EF7_E89D_64B7_5FD4);
    Rounds24(); Extend(24, 0x1EF7_E89D_64B7_5FD4, 8, 0x64BF_F540_8A5E_24BF);
    Rounds32(); Extend(32, 0x64BF_F540_8A5E_24BF, 8, 0x245A_8E35_3EAB_724C);
    Rounds40(); Extend(40, 0x245A_8E35_3EAB_724C, 8, 0xEE71_CDAB_1125_CC10);
    Rounds48(); Extend(48, 0xEE71_CDAB_1125_CC10, 8, 0x7AA6_CD7C_14DB_0D50);
    Rounds56(); Extend(56, 0x7AA6_CD7C_14DB_0D50, 8, 0x56B7_B6F4_567F_02EB);
  }

  lemma Live88()
    ensures Seed(88) == 0xBB9F_A7A6_AECE_6808 && LiveTo(88)
  {
    Live64();
    Rounds64(); Extend(64, 0x56B7_B6F4_567F_02EB, 8, 0x8A12_2913_8F54_F49F);
    Rounds72(); Extend(72, 0x8A12_2913_8F54_F49F, 8, 0xCA38_7491_C1F7_C5D3);
    Rounds80(); Extend(80, 0xCA38_7491_C1F7_C5D3, 8, 0xBB9F_A7A6_AECE_6808);
  }

  lemma Live128()
    ensures Seed(128) == 0x4E2B_111C_CD09_2C31 && LiveTo(128)
  {
    Live88();
    Rounds88(); Extend(88, 0xBB9F_A7A6_AECE_6808, 8, 0xB6A3_346D_0C15_3223);
    Rounds96(); Extend(96, 0xB6A3_346D_0C15_3223, 8, 0xC451_11C8_1857_3C6F);
    Rounds104(); Extend(104, 0xC451_11C8_1857_3C6F, 8, 0x5DFA_68E7_B32B_5FB4);
    Rounds112(); Extend(112, 0x5DFA_68E7_B32B_5FB4, 8, 0x4F1D_8EC9_261F_2923);
    Rounds120(); Extend(120, 0x4F1D_8EC9_261F_2923, 8, 0x4E2B_111C_CD09_2C31);
  }

  lemma Live192()
    ensures Seed(192) == 0xF9FD_F986_7A5C_475F && LiveTo(192)
  {
    Live128();
    Rounds128(); Extend(128, 0x4E2B_111C_CD09_2C31, 8, 0x6AA9_E080_4DCD_E1CD);
    Rounds136(); Extend(136, 0x6AA9_E080_4DCD_E1CD, 8, 0x480C_CB7E_4395_2199);
    Rounds144(); Extend(144, 0x480C_CB7E_4395_2199, 8, 0xD5B8_5847_FBC9_A2D5);
    Rounds152(); Extend(152, 0xD5B8_5847_FBC9_A2D5, 8, 0x124C_CCB4_93BE_4D9F);
    Rounds160(); Extend(160, 0x124C_CCB4_93BE_4D9F, 8, 0xABD2_5C4F_7568_FEFF);
    Rounds168(); Extend(168, 0xABD2_5C4F_7568_FEFF, 8, 0x04D5_4911_59DC_E38C);
    Rounds176(); Extend(176, 0x04D5_4911_59DC_E38C, 8, 0x05D7_F543_4ABB_9B1E);
    Rounds184(); Extend(184, 0x05D7_F543_4ABB_9B1E, 8, 0xF9FD_F986_7A5C_475F);
  }

  lemma Live256()
    ensures Seed(256) == 0x1824_BBA0_72F4_2090 && LiveTo(256)
  {
    Live192();
    Rounds192(); Extend(192, 0xF9FD_F986_7A5C_475F, 8, 0x73DC_E598_F1E0_CC0A);
    Rounds200(); Extend(200, 0x73DC_E598_F1E0_CC0A, 8, 0x5CF6_29D9_5373_8D61);
    Rounds208(); Extend(208, 0x5CF6_29D9_5373_8D61, 8, 0x05EE_9B29_D8F3_1232);
    Rounds216(); Extend(216, 0x05EE_9B29_D8F3_1232, 8, 0x74CF_5A63_285B_FBFD);
    Rounds224(); Extend(224, 0x74CF_5A63_285B_FBFD, 8, 0x06F0_AC77_6934_9E93);
    Rounds232(); Extend(232, 0x06F0_AC77_6934_9E93, 8, 0x3210_7FA5_B491_772D);
    Rounds240(); Extend(240, 0x3210_7FA5_B491_772D, 8, 0x45C0_7EFB_3413_67AA);
    Rounds248(); Extend(248, 0x45C0_7EFB_3413_67AA, 8, 0x1824_BBA0_72F4_2090);
  }

  lemma {:induction false} LiveEach(n: nat, i: nat)
    requires LiveTo(n) && 0 < i <= n
    ensures Busy(Seed(i))
  {
    if i < n { LiveEach(n - 1, i); }
  }

  lemma WiderMaskStaysLive(g: bv64, mask: bv64)
    requires Live(g, 0x1FF) && mask & 0x1FF == 0x1FF
    ensures Live(g, mask)
  {
  }

  lemma {:induction false} NineBitsOrMore(bits: nat)
    requires bits >= 9
    ensures LowMask(bits) & 0x1FF == 0x1FF
  {
    if bits == 9 {
      assert OneAt(3) == 8 && OneAt(6) == 64;
    } else {
      NineBitsOrMore(bits - 1);
      DoubledMask(OneAt(bits - 1));
    }
  }

  lemma DoubledMask(x: bv64)
    requires (x - 1) & 0x1FF == 0x1FF
    ensures ((x << 1) - 1) & 0x1FF == 0x1FF
  {
  }

  lemma GearIsLive(bits: nat)
    requires bits >= 9
    ensures NoZeroEntry(Gear(), LowMask(bits))
  {
    Live256();
    NineBitsOrMore(bits);
    forall b: byte ensures Live(Entry(Gear(), b), LowMask(bits)) {
      LiveEach(256, b + 1);
      WiderMaskStaysLive(Seed(b + 1), LowMask(bits));
    }
  }

  lemma Entry13()
    ensures Seed(14) == 0xA8E7_477B_AF1A_5101
  {
    Rounds0(); Extend(0, GEAR_SEED, 8, 0xF980_6FCD_4BFA_2447);
    assert Rounds(0xF980_6FCD_4BFA_2447, 6, 0xA8E7_477B_AF1A_5101);
    Extend(8, 0xF980_6FCD_4BFA_2447, 6, 0xA8E7_477B_AF1A_5101);
  }

  lemma {:induction false} EightBitsOrFewer(bits: nat)
    requires bits <= 8
    ensures LowMask(bits) & 0xFF == LowMask(bits)
  {
    assert OneAt(3) == 8 && OneAt(6) == 64;
  }

  lemma NarrowMaskMisses(mask: bv64)
    requires mask & 0xFF == mask
    ensures !Live(0xA8E7_477B_AF1A_5101, mask)
  {
  }

  /** The table has no entry that is zero on the mask's bits above bit 0 exactly from nine mask bits
      on; below, entry 13 is one. */
  lemma GearIsLiveIff(bits: nat)
    ensures NoZeroEntry(Gear(), LowMask(bits)) <==> bits >= 9
  {
    if bits >= 9 {
      GearIsLive(bits);
    } else {
      Entry13();
      EightBitsOrFewer(bits);
      NarrowMaskMisses(LowMask(bits));
      assert !Live(Entry(Gear(), 13), LowMask(bits));
    }
  }

  // ---------------------------------------------------------------- content that cuts below nine bits

  lemma Entry90()
    ensures Seed(91) == 0x8F5A_A01C_7F77_5780
  {
    Live88();
    assert Rounds(0xBB9F_A7A6_AECE_6808, 3, 0x8F5A_A01C_7F77_5780);
    Extend(88, 0xBB9F_A7A6_AECE_6808, 3, 0x8F5A_A01C_7F77_5780);
  }

  /** Entry 13 has its top bit set and ends in 0x01: the top bit carried round clears the lowest. */
  lemma Round13(fp: bv64)
    requires fp & 0x8000_0000_0000_0000 != 0
    ensures var r := GearUpdate(0xA8E7_477B_AF1A_5101, fp);
            r & 0x8000_0000_0000_0000 != 0 && r & 0xFF == ((fp & 0xFF) << 1) & 0xFF
  {
  }

  /** Entry 90 has its top bit set and ends in 0x80. */
  lemma Round90()
    ensures var r := GearUpdate(0x8F5A_A01C_7F77_5780, 0); r & 0x8000_0000_0000_0000 != 0 && r & 0xFF == 0x80
  {
  }

  /** A byte 90 and then bytes 13. */
  ghost predicate NinetyThenThirteens(data: seq<byte>) {
    |data| > 0 && data[0] == 90 && forall i :: 0 < i < |data| ==> data[i] == 13
  }

  lemma {:induction false} FingerprintOf13s(p: Params, data: seq<byte>, k: nat)
    requires 0 < k <= |data| && NinetyThenThirteens(data)
    requires forall fp :: p.update(13, fp) == GearUpdate(0xA8E7_477B_AF1A_5101, fp)
    requires p.update(90, 0) == GearUpdate(0x8F5A_A01C_7F77_5780, 0)
    ensures var fp := Fingerprint(p, data, 0, k);
            fp & 0x8000_0000_0000_0000 != 0 && fp & 0xFF == if k == 1 then 0x80 else 0
  {
    Round90();
    if k > 1 {
      FingerprintOf13s(p, data, k - 1);
      Round13(Fingerprint(p, data, 0, k - 1));
    }
  }

  /** Seven bits are zero from the first byte on, eight from the second. */
  lemma NarrowMaskHits(fp: bv64, mask: bv64)
    requires (fp & 0xFF == 0 && mask & 0xFF == mask) || (fp & 0xFF == 0x80 && mask & 0x7F == mask)
    ensures Under(fp, mask)
  {
  }

  lemma SevenBitsOrFewer(bits: nat)
    requires bits <= 7
    ensures LowMask(bits) & 0x7F == LowMask(bits)
  {
    assert OneAt(3) == 8 && OneAt(6) == 64;
  }

  lemma ThirteensHit(p: Params, bits: nat, data: seq<byte>, m: nat)
    requires 0 < m <= |data| && NinetyThenThirteens(data) && bits <= 8 && (bits <= 7 || m > 1)
    requires p == GearParams(Gear(), LowMask(bits), p.minSize, p.maxSize)
    ensures p.hit(Fingerprint(p, data, 0, m))
  {
    Entry13();
    Entry90();
    assert Entry(Gear(), 13) == Seed(14) && Entry(Gear(), 90) == Seed(91);
    FingerprintOf13s(p, data, m);
    EightBitsOrFewer(bits);
    if bits <= 7 { SevenBitsOrFewer(bits); }
    NarrowMaskHits(Fingerprint(p, data, 0, m), LowMask(bits));
  }

  lemma HitCuts(p: Params, data: seq<byte>, m: nat)
    requires 0 < m < |data| && p.minSize <= m && p.hit(Fingerprint(p, data, 0, m))
    ensures ChunksFrom(p, data, 0)[0].length <= m
  {
    assert Cuts(p, data, 0, m - 1);
    CutsBy(p, data, 0, 0, m - 1);
  }

  /** Fewer than nine mask bits and room between minimum and maximum: the first chunk ends below the
      maximum. With eight bits that takes two bytes. */
  lemma ThirteensCut(bits: nat, minSize: nat, maxSize: nat, data: seq<byte>)
    requires bits <= 8 && minSize < maxSize && 1 < maxSize < |data| && (bits <= 7 || maxSize > 2)
    requires NinetyThenThirteens(data)
    ensures ChunksFrom(GearParams(Gear(), LowMask(bits), minSize, maxSize), data, 0)[0].length < maxSize
  {
    var p := GearParams(Gear(), LowMask(bits), minSize, maxSize);
    var least := if bits <= 7 then 1 else 2;
    var m := if minSize < least then least else minSize;
    ThirteensHit(p, bits, data, m);
    HitCuts(p, data, m);
  }

  lemma {:induction false} Log2AtLeast(v: nat, n: nat)
    requires v >= Pow2(n)
    ensures Log2(v) >= n
  {
    if n > 0 {
      assert v >= 2 * Pow2(n - 1);
      Pow2Positive(n - 1);
      Log2AtLeast(v / 2, n - 1);
    }
  }

  lemma {:induction false} Pow2Positive(n: nat)
    ensures Pow2(n) >= 1
  {
    if n > 0 { Pow2Positive(n - 1); }
  }

  /** With the program's own table and an average size of 2048 or more, in particular the default of
      131072, no byte of the file ever decides a boundary: the scan is a division into blocks of the
      maximum size. */
  lemma DefaultScanIsFixedBlocks(cfg: CdcConfig, data: seq<byte>)
    requires cfg.avgSize >= 2048
    ensures ChunksFrom(GearParams(Gear(), LowMask(MaskBits(cfg.avgSize)), cfg.minSize, cfg.maxSize), data, 0) ==
            FixedBlocks(|data|, AtLeast1(cfg.maxSize), 0)
  {
    assert Pow2(11) == 2048 by { assert Pow2(5) == 32; Pow2Sum(6, 5); assert Pow2(6) == 64; }
    Log2AtLeast(cfg.avgSize, 11);
    GearIsLive(MaskBits(cfg.avgSize));
    NoZeroEntryMeansFixedBlocks(Gear(), LowMask(MaskBits(cfg.avgSize)), cfg.minSize, cfg.maxSize, data);
  }

  /** The scan with the program's own table. */
  function DefaultChunks(cfg: CdcConfig, data: seq<byte>): seq<Chunk> {
    ChunksFrom(GearParams(Gear(), LowMask(MaskBits(cfg.avgSize)), cfg.minSize, cfg.maxSize), data, 0)
  }

  /** One byte under eight mask bits never cuts: no entry ends in a zero byte. */
  lemma FirstByteNeverHits(b: byte)
    ensures !Under(GearUpdate(Entry(Gear(), b), 0), 0xFF)
  {
    Live256();
    LiveEach(256, b + 1);
    BusyMisses(Seed(b + 1));
  }

  lemma BusyMisses(g: bv64)
    requires Busy(g)
    ensures !Under(GearUpdate(g, 0), 0xFF)
  {
  }

  lemma TwoByteBlocks(cfg: CdcConfig, data: seq<byte>)
    requires cfg.maxSize == 2 && MaskBits(cfg.avgSize) == 8
    ensures DefaultChunks(cfg, data) == FixedBlocks(|data|, 2, 0)
  {
    var p := GearParams(Gear(), LowMask(8), cfg.minSize, 2);
    assert LowMask(8) == 0xFF by { assert OneAt(3) == 8 && OneAt(6) == 64; }
    forall a, i | 0 <= a <= i < |data| && i - a + 1 < 2 ensures !Matches(p, data, a, i) {
      FirstByteNeverHits(data[i]);
      assert Fingerprint(p, data, a, a) == 0;
    }
    NoSayMeansFixed(p, data, 0);
  }

  /** Where no content of any file can have a say in its boundaries: the mask is too wide for the
      table, the minimum leaves no room below the maximum, or the maximum is a byte; or it is two
      bytes, and the mask has eight bits, which no single byte meets. */
  predicate ContentIsIgnored(cfg: CdcConfig) {
    cfg.avgSize >= 2048 || cfg.minSize >= cfg.maxSize || cfg.maxSize <= 1 || (cfg.maxSize == 2 && cfg.avgSize >= 1024)
  }

  lemma IgnoredMeansFixed(cfg: CdcConfig, data: seq<byte>)
    requires ContentIsIgnored(cfg)
    ensures DefaultChunks(cfg, data) == FixedBlocks(|data|, AtLeast1(cfg.maxSize), 0)
  {
    if cfg.avgSize >= 2048 {
      DefaultScanIsFixedBlocks(cfg, data);
    } else if cfg.minSize >= cfg.maxSize || cfg.maxSize <= 1 {
      NoSayMeansFixed(GearParams(Gear(), LowMask(MaskBits(cfg.avgSize)), cfg.minSize, cfg.maxSize), data, 0);
    } else {
      NarrowBelow2048(cfg.avgSize);
      EightFrom1024(cfg.avgSize);
      TwoByteBlocks(cfg, data);
    }
  }

  lemma SomeContentCuts(cfg: CdcConfig) returns (data: seq<byte>)
    requires !ContentIsIgnored(cfg)
    ensures DefaultChunks(cfg, data) != FixedBlocks(|data|, AtLeast1(cfg.maxSize), 0)
  {
    NarrowBelow2048(cfg.avgSize);
    if cfg.avgSize < 1024 { NarrowBelow1024(cfg.avgSize); }
    data := [90] + seq(cfg.maxSize, _ => 13);
    ThirteensCut(MaskBits(cfg.avgSize), cfg.minSize, cfg.maxSize, data);
    assert FixedBlocks(|data|, cfg.maxSize, 0)[0].length == cfg.maxSize;
  }

  /** All files are cut into fixed blocks of the maximum size exactly where content is ignored. */
  lemma FixedBlocksIff(cfg: CdcConfig)
    ensures (forall data :: DefaultChunks(cfg, data) == FixedBlocks(|data|, AtLeast1(cfg.maxSize), 0)) <==>
            ContentIsIgnored(cfg)
  {
    if ContentIsIgnored(cfg) {
      forall data ensures DefaultChunks(cfg, data) == FixedBlocks(|data|, AtLeast1(cfg.maxSize), 0) {
        IgnoredMeansFixed(cfg, data);
      }
    } else {
      var data := SomeContentCuts(cfg);
    }
  }

  lemma NarrowBelow2048(avgSize: nat)
    requires avgSize < 2048
    ensures MaskBits(avgSize) <= 8
  {
    assert Pow2(11) == 2048 by { assert Pow2(5) == 32; Pow2Sum(6, 5); assert Pow2(6) == 64; }
    Log2Bounded(avgSize, 11);
  }

  lemma NarrowBelow1024(avgSize: nat)
    requires avgSize < 1024
    ensures MaskBits(avgSize) <= 7
  {
    assert Pow2(10) == 1024 by { assert Pow2(5) == 32; Pow2Sum(5, 5); }
    Log2Bounded(avgSize, 10);
  }

  lemma EightFrom1024(avgSize: nat)
    requires avgSize >= 1024
    ensures MaskBits(avgSize) >= 8
  {
    assert Pow2(10) == 1024 by { assert Pow2(5) == 32; Pow2Sum(5, 5); }
    Log2AtLeast(avgSize, 10);
  }
}
