/** The published `splitmix64-v1` vectors at literal words: nothing but the real shifts,
    multipliers and field numbers gives these values. */
module Conformance {
  import opened Words
  import opened Contracts
  import opened SplitMix
  import opened Generation
  import Bits

  // --------------------------------------------- exclusive or in base four

  lemma HalfLevel(u: nat, v: nat, w: nat, x: nat, y: nat)
    requires Xor(u + x / 2, v + y / 2) == w + Xor(x / 2, y / 2)
    ensures Xor(2 * u + x, 2 * v + y) == 2 * w + Xor(x, y)
  {
    hide Xor;
    XorDigits(2 * u + x, 2 * v + y);
    XorDigits(x, y);
  }

  /** One more base-four digit at the low end. */
  lemma Pair(a: nat, b: nat, x: nat, y: nat)
    requires x < 4 && y < 4
    ensures Xor(4 * a + x, 4 * b + y) == 4 * Xor(a, b) + Xor(x, y)
  {
    XorZero(0);
    hide Xor;
    HalfLevel(a, b, Xor(a, b), x / 2, y / 2);
    HalfLevel(2 * a, 2 * b, 2 * Xor(a, b), x, y);
  }

  /** Four digits as a number. */
  function Quad(x3: nat, x2: nat, x1: nat, x0: nat): nat {
    4 * (4 * (4 * x3 + x2) + x1) + x0
  }

  lemma Four(a: nat, b: nat, x3: nat, x2: nat, x1: nat, x0: nat, y3: nat, y2: nat, y1: nat, y0: nat)
    requires x3 < 4 && x2 < 4 && x1 < 4 && x0 < 4 && y3 < 4 && y2 < 4 && y1 < 4 && y0 < 4
    ensures Xor(256 * a + Quad(x3, x2, x1, x0), 256 * b + Quad(y3, y2, y1, y0))
         == 256 * Xor(a, b) + Quad(Xor(x3, y3), Xor(x2, y2), Xor(x1, y1), Xor(x0, y0))
  {
    hide Xor;
    Pair(a, b, x3, y3);
    Pair(4 * a + x3, 4 * b + y3, x2, y2);
    Pair(4 * (4 * a + x3) + x2, 4 * (4 * b + y3) + y2, x1, y1);
    Pair(4 * (4 * (4 * a + x3) + x2) + x1, 4 * (4 * (4 * b + y3) + y2) + y1, x0, y0);
  }

  /** Eight of them. */
  lemma Eight(a: nat, b: nat, x7: nat, x6: nat, x5: nat, x4: nat, x3: nat, x2: nat, x1: nat, x0: nat,
              y7: nat, y6: nat, y5: nat, y4: nat, y3: nat, y2: nat, y1: nat, y0: nat)
    requires x7 < 4 && x6 < 4 && x5 < 4 && x4 < 4 && x3 < 4 && x2 < 4 && x1 < 4 && x0 < 4
    requires y7 < 4 && y6 < 4 && y5 < 4 && y4 < 4 && y3 < 4 && y2 < 4 && y1 < 4 && y0 < 4
    ensures Xor(256 * (256 * a + Quad(x7, x6, x5, x4)) + Quad(x3, x2, x1, x0),
                256 * (256 * b + Quad(y7, y6, y5, y4)) + Quad(y3, y2, y1, y0))
         == 256 * (256 * Xor(a, b) + Quad(Xor(x7, y7), Xor(x6, y6), Xor(x5, y5), Xor(x4, y4)))
            + Quad(Xor(x3, y3), Xor(x2, y2), Xor(x1, y1), Xor(x0, y0))
  {
    hide Xor, Quad;
    Four(a, b, x7, x6, x5, x4, y7, y6, y5, y4);
    Four(256 * a + Quad(x7, x6, x5, x4), 256 * b + Quad(y7, y6, y5, y4), x3, x2, x1, x0, y3, y2, y1, y0);
  }

  /** All pairs of such digits. */
  lemma Pairs()
    ensures Xor(0, 0) == 0 && Xor(0, 1) == 1 && Xor(0, 2) == 2 && Xor(0, 3) == 3
    ensures Xor(1, 0) == 1 && Xor(1, 1) == 0 && Xor(1, 2) == 3 && Xor(1, 3) == 2
    ensures Xor(2, 0) == 2 && Xor(2, 1) == 3 && Xor(2, 2) == 0 && Xor(2, 3) == 1
    ensures Xor(3, 0) == 3 && Xor(3, 1) == 2 && Xor(3, 2) == 1 && Xor(3, 3) == 0
  {
  }

  /** A xor-shift by one of the mixer's distances, with the shifted word spelled out. */
  lemma Shifted(v: U64, shift: nat)
    requires shift == 27 || shift == 30 || shift == 31
    ensures XorShift(v, shift) == Xor(v, v / if shift == 27 then 0x800_0000 else if shift == 30 then 0x4000_0000 else 0x8000_0000)
  {
    hide Xor, Shr;
    Bits.ShrDivides(v, shift);
    Distances();
  }

  lemma Distances()
    ensures Pow2(27) == 0x800_0000 && Pow2(30) == 0x4000_0000 && Pow2(31) == 0x8000_0000
  {
    Pow2Of8();
    Pow2Of64();
    assert Pow2(3) == 8 && Pow2(6) == 64 && Pow2(7) == 128;
    hide Pow2;
    Pow2Add(16, 8);
    Pow2Add(24, 3);
    Pow2Add(24, 6);
    Pow2Add(24, 7);
  }

  // ------------------------------------------------------------- the mixer

  lemma MixZeroFirst()
    ensures XorShift(0x9E37_79B9_7F4A_7C15, 30) == 0x9E37_79BB_0797_9AF0
  {
    hide Xor, Shr;
    Pairs();
    Shifted(0x9E37_79B9_7F4A_7C15, 30);
    Eight(0x0, 0x0, 2, 1, 3, 2, 0, 3, 1, 3, 0, 0, 0, 0, 0, 0, 0, 0);
    Eight(0x9E37, 0x0, 1, 3, 2, 1, 2, 3, 2, 1, 0, 0, 0, 0, 0, 0, 0, 2);
    Eight(0x9E37_79B9, 0x2, 1, 3, 3, 3, 1, 0, 2, 2, 1, 3, 2, 0, 3, 1, 3, 1);
    Eight(0x9E37_79B9_7F4A, 0x2_78DD, 1, 3, 3, 0, 0, 1, 1, 1, 3, 2, 1, 2, 3, 2, 1, 1);
  }

  lemma MixZeroSecond()
    ensures XorShift(0x6F68_261B_57E7_A770, 27) == 0x6F68_2616_BAE3_641A
  {
    hide Xor, Shr;
    Pairs();
    Shifted(0x6F68_261B_57E7_A770, 27);
    Eight(0x0, 0x0, 1, 2, 3, 3, 1, 2, 2, 0, 0, 0, 0, 0, 0, 0, 0, 0);
    Eight(0x6F68, 0x0, 0, 2, 1, 2, 0, 1, 2, 3, 0, 0, 0, 0, 0, 0, 3, 1);
    Eight(0x6F68_261B, 0xD, 1, 1, 1, 3, 3, 2, 1, 3, 3, 2, 3, 1, 0, 0, 1, 0);
    Eight(0x6F68_261B_57E7, 0xD_ED04, 2, 2, 1, 3, 1, 3, 0, 0, 3, 0, 0, 3, 1, 2, 2, 2);
  }

  lemma MixZeroThird()
    ensures XorShift(0xE220_A838_BF5C_9DDE, 31) == 0xE220_A839_7B1D_CDAF
  {
    hide Xor, Shr;
    Pairs();
    Shifted(0xE220_A838_BF5C_9DDE, 31);
    Eight(0x0, 0x0, 3, 2, 0, 2, 0, 2, 0, 0, 0, 0, 0, 0, 0, 0, 0, 0);
    Eight(0xE220, 0x0, 2, 2, 2, 0, 0, 3, 2, 0, 0, 0, 0, 0, 0, 0, 0, 1);
    Eight(0xE220_A838, 0x1, 2, 3, 3, 3, 1, 1, 3, 0, 3, 0, 1, 0, 1, 0, 0, 1);
    Eight(0xE220_A838_BF5C, 0x1_C441, 2, 1, 3, 1, 3, 1, 3, 2, 1, 1, 0, 0, 1, 3, 0, 1);
  }

  lemma MixZeroWords()
    ensures WrappingAdd(0x0, GOLDEN_GAMMA) == 0x9E37_79B9_7F4A_7C15
    ensures WrappingMul(0x9E37_79BB_0797_9AF0, MIX_MULTIPLIER_ONE) == 0x6F68_261B_57E7_A770
    ensures WrappingMul(0x6F68_2616_BAE3_641A, MIX_MULTIPLIER_TWO) == 0xE220_A838_BF5C_9DDE
  {
  }

  lemma MixZero()
    ensures Mix(0x0) == 0xE220_A839_7B1D_CDAF
  {
    hide XorShift, WrappingAdd, WrappingMul;
    MixZeroWords();
    MixZeroFirst();
    MixZeroSecond();
    MixZeroThird();
  }

  // ------------------------------------------------------------ samples

  lemma UniformSelectorKey()
    ensures XorWord(XorWord(0x95, WrappingMul(1, INDEX_MULTIPLIER)), WrappingMul(0, FIELD_MULTIPLIER)) == 0xD1B5_4A32_D192_ED96
  {
    hide Xor;
    Pairs();
    assert WrappingMul(1, INDEX_MULTIPLIER) == 0xD1B5_4A32_D192_ED03 && WrappingMul(0, FIELD_MULTIPLIER) == 0x0;
    Eight(0x0, 0x0, 0, 0, 0, 0, 0, 0, 0, 0, 3, 1, 0, 1, 2, 3, 1, 1);
    Eight(0x0, 0xD1B5, 0, 0, 0, 0, 0, 0, 0, 0, 1, 0, 2, 2, 0, 3, 0, 2);
    Eight(0x0, 0xD1B5_4A32, 0, 0, 0, 0, 0, 0, 0, 0, 3, 1, 0, 1, 2, 1, 0, 2);
    Eight(0x0, 0xD1B5_4A32_D192, 0, 0, 0, 0, 2, 1, 1, 1, 3, 2, 3, 1, 0, 0, 0, 3);
    Eight(0x0, 0x0, 3, 1, 0, 1, 2, 3, 1, 1, 0, 0, 0, 0, 0, 0, 0, 0);
    Eight(0xD1B5, 0x0, 1, 0, 2, 2, 0, 3, 0, 2, 0, 0, 0, 0, 0, 0, 0, 0);
    Eight(0xD1B5_4A32, 0x0, 3, 1, 0, 1, 2, 1, 0, 2, 0, 0, 0, 0, 0, 0, 0, 0);
    Eight(0xD1B5_4A32_D192, 0x0, 3, 2, 3, 1, 2, 1, 1, 2, 0, 0, 0, 0, 0, 0, 0, 0);
  }

  lemma UniformSelectorMixFirst()
    ensures XorShift(0x6FEC_C3EC_50DD_69AB, 30) == 0x6FEC_C3ED_EF6E_661A
  {
    hide Xor, Shr;
    Pairs();
    Shifted(0x6FEC_C3EC_50DD_69AB, 30);
    Eight(0x0, 0x0, 1, 2, 3, 3, 3, 2, 3, 0, 0, 0, 0, 0, 0, 0, 0, 0);
    Eight(0x6FEC, 0x0, 3, 0, 0, 3, 3, 2, 3, 0, 0, 0, 0, 0, 0, 0, 0, 1);
    Eight(0x6FEC_C3EC, 0x1, 1, 1, 0, 0, 3, 1, 3, 1, 2, 3, 3, 3, 2, 3, 0, 3);
    Eight(0x6FEC_C3EC_50DD, 0x1_BFB3, 1, 2, 2, 1, 2, 2, 2, 3, 0, 0, 3, 3, 2, 3, 0, 1);
  }

  lemma UniformSelectorMixSecond()
    ensures XorShift(0x42B9_6EAF_8F45_0ACA, 27) == 0x42B9_6EA7_D868_DF3B
  {
    hide Xor, Shr;
    Pairs();
    Shifted(0x42B9_6EAF_8F45_0ACA, 27);
    Eight(0x0, 0x0, 1, 0, 0, 2, 2, 3, 2, 1, 0, 0, 0, 0, 0, 0, 0, 0);
    Eight(0x42B9, 0x0, 1, 2, 3, 2, 2, 2, 3, 3, 0, 0, 0, 0, 0, 0, 2, 0);
    Eight(0x42B9_6EAF, 0x8, 2, 0, 3, 3, 1, 0, 1, 1, 1, 1, 1, 3, 0, 2, 3, 1);
    Eight(0x42B9_6EAF_8F45, 0x8_572D, 0, 0, 2, 2, 3, 0, 2, 2, 3, 1, 1, 1, 3, 3, 0, 1);
  }

  lemma UniformSelectorMixThird()
    ensures XorShift(0xABF4_D12F_BA62_D629, 31) == 0xABF4_D12E_ED8B_7476
  {
    hide Xor, Shr;
    Pairs();
    Shifted(0xABF4_D12F_BA62_D629, 31);
    Eight(0x0, 0x0, 2, 2, 2, 3, 3, 3, 1, 0, 0, 0, 0, 0, 0, 0, 0, 0);
    Eight(0xABF4, 0x0, 3, 1, 0, 1, 0, 2, 3, 3, 0, 0, 0, 0, 0, 0, 0, 1);
    Eight(0xABF4_D12F, 0x1, 2, 3, 2, 2, 1, 2, 0, 2, 1, 1, 1, 3, 3, 2, 2, 1);
    Eight(0xABF4_D12F_BA62, 0x1_57E9, 3, 1, 1, 2, 0, 2, 2, 1, 2, 2, 0, 2, 1, 1, 3, 3);
  }

  lemma UniformSelectorMixWords()
    ensures WrappingAdd(0xD1B5_4A32_D192_ED96, GOLDEN_GAMMA) == 0x6FEC_C3EC_50DD_69AB
    ensures WrappingMul(0x6FEC_C3ED_EF6E_661A, MIX_MULTIPLIER_ONE) == 0x42B9_6EAF_8F45_0ACA
    ensures WrappingMul(0x42B9_6EA7_D868_DF3B, MIX_MULTIPLIER_TWO) == 0xABF4_D12F_BA62_D629
  {
  }

  lemma UniformSelectorMix()
    ensures Mix(0xD1B5_4A32_D192_ED96) == 0xABF4_D12E_ED8B_7476
  {
    hide XorShift, WrappingAdd, WrappingMul;
    UniformSelectorMixWords();
    UniformSelectorMixFirst();
    UniformSelectorMixSecond();
    UniformSelectorMixThird();
  }

  lemma UniformSelector()
    ensures Sample(149, 1, 0) == 0xABF4_D12E_ED8B_7476
  {
    hide XorWord, WrappingMul, Mix;
    UniformSelectorKey();
    UniformSelectorMix();
  }

  lemma HotspotCategoryKey()
    ensures XorWord(XorWord(0x7EA, WrappingMul(3, INDEX_MULTIPLIER)), WrappingMul(0, FIELD_MULTIPLIER)) == 0x751F_DE98_74B8_C0E3
  {
    hide Xor;
    Pairs();
    assert WrappingMul(3, INDEX_MULTIPLIER) == 0x751F_DE98_74B8_C709 && WrappingMul(0, FIELD_MULTIPLIER) == 0x0;
    Eight(0x0, 0x0, 0, 0, 0, 0, 0, 0, 0, 0, 1, 3, 1, 1, 0, 1, 3, 3);
    Eight(0x0, 0x751F, 0, 0, 0, 0, 0, 0, 0, 0, 3, 1, 3, 2, 2, 1, 2, 0);
    Eight(0x0, 0x751F_DE98, 0, 0, 0, 0, 0, 0, 0, 0, 1, 3, 1, 0, 2, 3, 2, 0);
    Eight(0x0, 0x751F_DE98_74B8, 0, 0, 1, 3, 3, 2, 2, 2, 3, 0, 1, 3, 0, 0, 2, 1);
    Eight(0x0, 0x0, 1, 3, 1, 1, 0, 1, 3, 3, 0, 0, 0, 0, 0, 0, 0, 0);
    Eight(0x751F, 0x0, 3, 1, 3, 2, 2, 1, 2, 0, 0, 0, 0, 0, 0, 0, 0, 0);
    Eight(0x751F_DE98, 0x0, 1, 3, 1, 0, 2, 3, 2, 0, 0, 0, 0, 0, 0, 0, 0, 0);
    Eight(0x751F_DE98_74B8, 0x0, 3, 0, 0, 0, 3, 2, 0, 3, 0, 0, 0, 0, 0, 0, 0, 0);
  }

  lemma HotspotCategoryMixFirst()
    ensures XorShift(0x1357_5851_F403_3CF8, 30) == 0x1357_5851_B95E_5DBF
  {
    hide Xor, Shr;
    Pairs();
    Shifted(0x1357_5851_F403_3CF8, 30);
    Eight(0x0, 0x0, 0, 1, 0, 3, 1, 1, 1, 3, 0, 0, 0, 0, 0, 0, 0, 0);
    Eight(0x1357, 0x0, 1, 1, 2, 0, 1, 1, 0, 1, 0, 0, 0, 0, 0, 0, 0, 0);
    Eight(0x1357_5851, 0x0, 3, 3, 1, 0, 0, 0, 0, 3, 1, 0, 3, 1, 1, 1, 3, 1);
    Eight(0x1357_5851_F403, 0x4D5D, 0, 3, 3, 0, 3, 3, 2, 0, 1, 2, 0, 1, 1, 0, 1, 3);
  }

  lemma HotspotCategoryMixSecond()
    ensures XorShift(0x8905_3B7F_C129_9A07, 27) == 0x8905_3B6E_E18E_F5FF
  {
    hide Xor, Shr;
    Pairs();
    Shifted(0x8905_3B7F_C129_9A07, 27);
    Eight(0x0, 0x0, 2, 0, 2, 1, 0, 0, 1, 1, 0, 0, 0, 0, 0, 0, 0, 0);
    Eight(0x8905, 0x0, 0, 3, 2, 3, 1, 3, 3, 3, 0, 0, 0, 0, 0, 1, 0, 1);
    Eight(0x8905_3B7F, 0x11, 3, 0, 0, 1, 0, 2, 2, 1, 0, 2, 0, 0, 2, 2, 1, 3);
    Eight(0x8905_3B7F_C129, 0x11_20A7, 2, 1, 2, 2, 0, 0, 1, 3, 1, 2, 3, 3, 3, 3, 2, 0);
  }

  lemma HotspotCategoryMixThird()
    ensures XorShift(0x8E7A_1CA7_8F60_C015, 31) == 0x8E7A_1CA6_9394_F95A
  {
    hide Xor, Shr;
    Pairs();
    Shifted(0x8E7A_1CA7_8F60_C015, 31);
    Eight(0x0, 0x0, 2, 0, 3, 2, 1, 3, 2, 2, 0, 0, 0, 0, 0, 0, 0, 0);
    Eight(0x8E7A, 0x0, 0, 1, 3, 0, 2, 2, 1, 3, 0, 0, 0, 0, 0, 0, 0, 1);
    Eight(0x8E7A_1CA7, 0x1, 2, 0, 3, 3, 1, 2, 0, 0, 0, 1, 3, 0, 3, 3, 1, 0);
    Eight(0x8E7A_1CA7_8F60, 0x1_1CF4, 3, 0, 0, 0, 0, 1, 1, 1, 0, 3, 2, 1, 1, 0, 3, 3);
  }

  lemma HotspotCategoryMixWords()
    ensures WrappingAdd(0x751F_DE98_74B8_C0E3, GOLDEN_GAMMA) == 0x1357_5851_F403_3CF8
    ensures WrappingMul(0x1357_5851_B95E_5DBF, MIX_MULTIPLIER_ONE) == 0x8905_3B7F_C129_9A07
    ensures WrappingMul(0x8905_3B6E_E18E_F5FF, MIX_MULTIPLIER_TWO) == 0x8E7A_1CA7_8F60_C015
  {
  }

  lemma HotspotCategoryMix()
    ensures Mix(0x751F_DE98_74B8_C0E3) == 0x8E7A_1CA6_9394_F95A
  {
    hide XorShift, WrappingAdd, WrappingMul;
    HotspotCategoryMixWords();
    HotspotCategoryMixFirst();
    HotspotCategoryMixSecond();
    HotspotCategoryMixThird();
  }

  lemma HotspotCategory()
    ensures Sample(2026, 3, 0) == 0x8E7A_1CA6_9394_F95A
  {
    hide XorWord, WrappingMul, Mix;
    HotspotCategoryKey();
    HotspotCategoryMix();
  }

  lemma HotspotAKey()
    ensures XorWord(XorWord(0x7EA, WrappingMul(3, INDEX_MULTIPLIER)), WrappingMul(1, FIELD_MULTIPLIER)) == 0xE1CF_9723_6789_D108
  {
    hide Xor;
    Pairs();
    assert WrappingMul(3, INDEX_MULTIPLIER) == 0x751F_DE98_74B8_C709 && WrappingMul(1, FIELD_MULTIPLIER) == 0x94D0_49BB_1331_11EB;
    Eight(0x0, 0x0, 0, 0, 0, 0, 0, 0, 0, 0, 1, 3, 1, 1, 0, 1, 3, 3);
    Eight(0x0, 0x751F, 0, 0, 0, 0, 0, 0, 0, 0, 3, 1, 3, 2, 2, 1, 2, 0);
    Eight(0x0, 0x751F_DE98, 0, 0, 0, 0, 0, 0, 0, 0, 1, 3, 1, 0, 2, 3, 2, 0);
    Eight(0x0, 0x751F_DE98_74B8, 0, 0, 1, 3, 3, 2, 2, 2, 3, 0, 1, 3, 0, 0, 2, 1);
    Eight(0x0, 0x0, 1, 3, 1, 1, 0, 1, 3, 3, 2, 1, 1, 0, 3, 1, 0, 0);
    Eight(0x751F, 0x94D0, 3, 1, 3, 2, 2, 1, 2, 0, 1, 0, 2, 1, 2, 3, 2, 3);
    Eight(0x751F_DE98, 0x94D0_49BB, 1, 3, 1, 0, 2, 3, 2, 0, 0, 1, 0, 3, 0, 3, 0, 1);
    Eight(0x751F_DE98_74B8, 0x94D0_49BB_1331, 3, 0, 0, 0, 3, 2, 0, 3, 0, 1, 0, 1, 3, 2, 2, 3);
  }

  lemma HotspotAMixFirst()
    ensures XorShift(0x8007_10DC_E6D4_4D1D, 30) == 0x8007_10DE_E6C8_0E6E
  {
    hide Xor, Shr;
    Pairs();
    Shifted(0x8007_10DC_E6D4_4D1D, 30);
    Eight(0x0, 0x0, 2, 0, 0, 0, 0, 0, 1, 3, 0, 0, 0, 0, 0, 0, 0, 0);
    Eight(0x8007, 0x0, 0, 1, 0, 0, 3, 1, 3, 0, 0, 0, 0, 0, 0, 0, 0, 2);
    Eight(0x8007_10DC, 0x2, 3, 2, 1, 2, 3, 1, 1, 0, 0, 0, 0, 0, 0, 1, 3, 0);
    Eight(0x8007_10DC_E6D4, 0x2_001C, 1, 0, 3, 1, 0, 1, 3, 1, 1, 0, 0, 3, 1, 3, 0, 3);
  }

  lemma HotspotAMixSecond()
    ensures XorShift(0x5F4_A81C_9D72_D37E, 27) == 0x5F4_A81C_23E7_D0ED
  {
    hide Xor, Shr;
    Pairs();
    Shifted(0x5F4_A81C_9D72_D37E, 27);
    Eight(0x0, 0x0, 0, 0, 1, 1, 3, 3, 1, 0, 0, 0, 0, 0, 0, 0, 0, 0);
    Eight(0x5F4, 0x0, 2, 2, 2, 0, 0, 1, 3, 0, 0, 0, 0, 0, 0, 0, 0, 0);
    Eight(0x5F4_A81C, 0x0, 2, 1, 3, 1, 1, 3, 0, 2, 2, 3, 3, 2, 2, 1, 1, 1);
    Eight(0x5F4_A81C_9D72, 0xBE95, 3, 1, 0, 3, 1, 3, 3, 2, 0, 0, 0, 3, 2, 1, 0, 3);
  }

  lemma HotspotAMixThird()
    ensures XorShift(0x1446_7636_EF09_868F, 31) == 0x1446_7636_C785_6AE2
  {
    hide Xor, Shr;
    Pairs();
    Shifted(0x1446_7636_EF09_868F, 31);
    Eight(0x0, 0x0, 0, 1, 1, 0, 1, 0, 1, 2, 0, 0, 0, 0, 0, 0, 0, 0);
    Eight(0x1446, 0x0, 1, 3, 1, 2, 0, 3, 1, 2, 0, 0, 0, 0, 0, 0, 0, 0);
    Eight(0x1446_7636, 0x0, 3, 2, 3, 3, 0, 0, 2, 1, 0, 2, 2, 0, 2, 0, 3, 0);
    Eight(0x1446_7636_EF09, 0x288C, 2, 0, 1, 2, 2, 0, 3, 3, 3, 2, 3, 0, 1, 2, 3, 1);
  }

  lemma HotspotAMixWords()
    ensures WrappingAdd(0xE1CF_9723_6789_D108, GOLDEN_GAMMA) == 0x8007_10DC_E6D4_4D1D
    ensures WrappingMul(0x8007_10DE_E6C8_0E6E, MIX_MULTIPLIER_ONE) == 0x5F4_A81C_9D72_D37E
    ensures WrappingMul(0x5F4_A81C_23E7_D0ED, MIX_MULTIPLIER_TWO) == 0x1446_7636_EF09_868F
  {
  }

  lemma HotspotAMix()
    ensures Mix(0xE1CF_9723_6789_D108) == 0x1446_7636_C785_6AE2
  {
    hide XorShift, WrappingAdd, WrappingMul;
    HotspotAMixWords();
    HotspotAMixFirst();
    HotspotAMixSecond();
    HotspotAMixThird();
  }

  lemma HotspotA()
    ensures Sample(2026, 3, 1) == 0x1446_7636_C785_6AE2
  {
    hide XorWord, WrappingMul, Mix;
    HotspotAKey();
    HotspotAMix();
  }

  lemma HotspotBKey()
    ensures XorWord(XorWord(0x7EA, WrappingMul(3, INDEX_MULTIPLIER)), WrappingMul(2, FIELD_MULTIPLIER)) == 0x5CBF_4DEE_52DA_E335
  {
    hide Xor;
    Pairs();
    assert WrappingMul(3, INDEX_MULTIPLIER) == 0x751F_DE98_74B8_C709 && WrappingMul(2, FIELD_MULTIPLIER) == 0x29A0_9376_2662_23D6;
    Eight(0x0, 0x0, 0, 0, 0, 0, 0, 0, 0, 0, 1, 3, 1, 1, 0, 1, 3, 3);
    Eight(0x0, 0x751F, 0, 0, 0, 0, 0, 0, 0, 0, 3, 1, 3, 2, 2, 1, 2, 0);
    Eight(0x0, 0x751F_DE98, 0, 0, 0, 0, 0, 0, 0, 0, 1, 3, 1, 0, 2, 3, 2, 0);
    Eight(0x0, 0x751F_DE98_74B8, 0, 0, 1, 3, 3, 2, 2, 2, 3, 0, 1, 3, 0, 0, 2, 1);
    Eight(0x0, 0x0, 1, 3, 1, 1, 0, 1, 3, 3, 0, 2, 2, 1, 2, 2, 0, 0);
    Eight(0x751F, 0x29A0, 3, 1, 3, 2, 2, 1, 2, 0, 2, 1, 0, 3, 1, 3, 1, 2);
    Eight(0x751F_DE98, 0x29A0_9376, 1, 3, 1, 0, 2, 3, 2, 0, 0, 2, 1, 2, 1, 2, 0, 2);
    Eight(0x751F_DE98_74B8, 0x29A0_9376_2662, 3, 0, 0, 0, 3, 2, 0, 3, 0, 2, 0, 3, 3, 1, 1, 2);
  }

  lemma HotspotBMixFirst()
    ensures XorShift(0xFAF6_C7A7_D225_5F4A, 30) == 0xFAF6_C7A4_39FE_41D5
  {
    hide Xor, Shr;
    Pairs();
    Shifted(0xFAF6_C7A7_D225_5F4A, 30);
    Eight(0x0, 0x0, 3, 3, 2, 2, 3, 3, 1, 2, 0, 0, 0, 0, 0, 0, 0, 0);
    Eight(0xFAF6, 0x0, 3, 0, 1, 3, 2, 2, 1, 3, 0, 0, 0, 0, 0, 0, 0, 3);
    Eight(0xFAF6_C7A7, 0x3, 3, 1, 0, 2, 0, 2, 1, 1, 3, 2, 2, 3, 3, 1, 2, 3);
    Eight(0xFAF6_C7A7_D225, 0x3_EBDB, 1, 1, 3, 3, 1, 0, 2, 2, 0, 1, 3, 2, 2, 1, 3, 3);
  }

  lemma HotspotBMixSecond()
    ensures XorShift(0xA343_BDE5_4755_1BED, 27) == 0xA343_BDF1_2F22_A745
  {
    hide Xor, Shr;
    Pairs();
    Shifted(0xA343_BDE5_4755_1BED, 27);
    Eight(0x0, 0x0, 2, 2, 0, 3, 1, 0, 0, 3, 0, 0, 0, 0, 0, 0, 0, 0);
    Eight(0xA343, 0x0, 2, 3, 3, 1, 3, 2, 1, 1, 0, 0, 0, 0, 0, 1, 1, 0);
    Eight(0xA343_BDE5, 0x14, 1, 0, 1, 3, 1, 1, 1, 1, 1, 2, 2, 0, 1, 3, 1, 3);
    Eight(0xA343_BDE5_4755, 0x14_6877, 0, 1, 2, 3, 3, 2, 3, 1, 2, 3, 3, 0, 2, 2, 2, 0);
  }

  lemma HotspotBMixThird()
    ensures XorShift(0xBC88_D4FA_B520_2157, 31) == 0xBC88_D4FB_CC31_88A2
  {
    hide Xor, Shr;
    Pairs();
    Shifted(0xBC88_D4FA_B520_2157, 31);
    Eight(0x0, 0x0, 2, 3, 3, 0, 2, 0, 2, 0, 0, 0, 0, 0, 0, 0, 0, 0);
    Eight(0xBC88, 0x0, 3, 1, 1, 0, 3, 3, 2, 2, 0, 0, 0, 0, 0, 0, 0, 1);
    Eight(0xBC88_D4FA, 0x1, 2, 3, 1, 1, 0, 2, 0, 0, 1, 3, 2, 1, 0, 1, 0, 1);
    Eight(0xBC88_D4FA_B520, 0x1_7911, 0, 2, 0, 1, 1, 1, 1, 3, 2, 2, 2, 1, 3, 3, 1, 1);
  }

  lemma HotspotBMixWords()
    ensures WrappingAdd(0x5CBF_4DEE_52DA_E335, GOLDEN_GAMMA) == 0xFAF6_C7A7_D225_5F4A
    ensures WrappingMul(0xFAF6_C7A4_39FE_41D5, MIX_MULTIPLIER_ONE) == 0xA343_BDE5_4755_1BED
    ensures WrappingMul(0xA343_BDF1_2F22_A745, MIX_MULTIPLIER_TWO) == 0xBC88_D4FA_B520_2157
  {
  }

  lemma HotspotBMix()
    ensures Mix(0x5CBF_4DEE_52DA_E335) == 0xBC88_D4FB_CC31_88A2
  {
    hide XorShift, WrappingAdd, WrappingMul;
    HotspotBMixWords();
    HotspotBMixFirst();
    HotspotBMixSecond();
    HotspotBMixThird();
  }

  lemma HotspotB()
    ensures Sample(2026, 3, 2) == 0xBC88_D4FB_CC31_88A2
  {
    hide XorWord, WrappingMul, Mix;
    HotspotBKey();
    HotspotBMix();
  }

  lemma HotspotFlagsKey()
    ensures XorWord(XorWord(0x7EA, WrappingMul(3, INDEX_MULTIPLIER)), WrappingMul(3, FIELD_MULTIPLIER)) == 0xCB6F_03A9_4D2B_F522
  {
    hide Xor;
    Pairs();
    assert WrappingMul(3, INDEX_MULTIPLIER) == 0x751F_DE98_74B8_C709 && WrappingMul(3, FIELD_MULTIPLIER) == 0xBE70_DD31_3993_35C1;
    Eight(0x0, 0x0, 0, 0, 0, 0, 0, 0, 0, 0, 1, 3, 1, 1, 0, 1, 3, 3);
    Eight(0x0, 0x751F, 0, 0, 0, 0, 0, 0, 0, 0, 3, 1, 3, 2, 2, 1, 2, 0);
    Eight(0x0, 0x751F_DE98, 0, 0, 0, 0, 0, 0, 0, 0, 1, 3, 1, 0, 2, 3, 2, 0);
    Eight(0x0, 0x751F_DE98_74B8, 0, 0, 1, 3, 3, 2, 2, 2, 3, 0, 1, 3, 0, 0, 2, 1);
    Eight(0x0, 0x0, 1, 3, 1, 1, 0, 1, 3, 3, 2, 3, 3, 2, 1, 3, 0, 0);
    Eight(0x751F, 0xBE70, 3, 1, 3, 2, 2, 1, 2, 0, 3, 1, 3, 1, 0, 3, 0, 1);
    Eight(0x751F_DE98, 0xBE70_DD31, 1, 3, 1, 0, 2, 3, 2, 0, 0, 3, 2, 1, 2, 1, 0, 3);
    Eight(0x751F_DE98_74B8, 0xBE70_DD31_3993, 3, 0, 0, 0, 3, 2, 0, 3, 0, 3, 1, 1, 3, 0, 0, 1);
  }

  lemma HotspotFlagsMixFirst()
    ensures XorShift(0x69A6_7D62_CC76_7137, 30) == 0x69A6_7D63_6AEF_84BC
  {
    hide Xor, Shr;
    Pairs();
    Shifted(0x69A6_7D62_CC76_7137, 30);
    Eight(0x0, 0x0, 1, 2, 2, 1, 2, 2, 1, 2, 0, 0, 0, 0, 0, 0, 0, 0);
    Eight(0x69A6, 0x0, 1, 3, 3, 1, 1, 2, 0, 2, 0, 0, 0, 0, 0, 0, 0, 1);
    Eight(0x69A6_7D62, 0x1, 3, 0, 3, 0, 1, 3, 1, 2, 2, 2, 1, 2, 2, 1, 2, 1);
    Eight(0x69A6_7D62_CC76, 0x1_A699, 1, 3, 0, 1, 0, 3, 1, 3, 3, 3, 1, 1, 2, 0, 2, 3);
  }

  lemma HotspotFlagsMixSecond()
    ensures XorShift(0xAE23_A363_5043_17DC, 27) == 0xAE23_A376_9437_7BB6
  {
    hide Xor, Shr;
    Pairs();
    Shifted(0xAE23_A363_5043_17DC, 27);
    Eight(0x0, 0x0, 2, 2, 3, 2, 0, 2, 0, 3, 0, 0, 0, 0, 0, 0, 0, 0);
    Eight(0xAE23, 0x0, 2, 2, 0, 3, 1, 2, 0, 3, 0, 0, 0, 0, 0, 1, 1, 1);
    Eight(0xAE23_A363, 0x15, 1, 1, 0, 0, 1, 0, 0, 3, 3, 0, 1, 0, 1, 3, 1, 0);
    Eight(0xAE23_A363_5043, 0x15_C474, 0, 1, 1, 3, 3, 1, 3, 0, 1, 2, 3, 0, 1, 2, 2, 2);
  }

  lemma HotspotFlagsMixThird()
    ensures XorShift(0x21F2_AE70_EDFB_A612, 31) == 0x21F2_AE70_AE1E_FAF3
  {
    hide Xor, Shr;
    Pairs();
    Shifted(0x21F2_AE70_EDFB_A612, 31);
    Eight(0x0, 0x0, 0, 2, 0, 1, 3, 3, 0, 2, 0, 0, 0, 0, 0, 0, 0, 0);
    Eight(0x21F2, 0x0, 2, 2, 3, 2, 1, 3, 0, 0, 0, 0, 0, 0, 0, 0, 0, 0);
    Eight(0x21F2_AE70, 0x0, 3, 2, 3, 1, 3, 3, 2, 3, 1, 0, 0, 3, 3, 2, 1, 1);
    Eight(0x21F2_AE70_EDFB, 0x43E5, 2, 2, 1, 2, 0, 1, 0, 2, 1, 1, 3, 0, 3, 2, 0, 1);
  }

  lemma HotspotFlagsMixWords()
    ensures WrappingAdd(0xCB6F_03A9_4D2B_F522, GOLDEN_GAMMA) == 0x69A6_7D62_CC76_7137
    ensures WrappingMul(0x69A6_7D63_6AEF_84BC, MIX_MULTIPLIER_ONE) == 0xAE23_A363_5043_17DC
    ensures WrappingMul(0xAE23_A376_9437_7BB6, MIX_MULTIPLIER_TWO) == 0x21F2_AE70_EDFB_A612
  {
  }

  lemma HotspotFlagsMix()
    ensures Mix(0xCB6F_03A9_4D2B_F522) == 0x21F2_AE70_AE1E_FAF3
  {
    hide XorShift, WrappingAdd, WrappingMul;
    HotspotFlagsMixWords();
    HotspotFlagsMixFirst();
    HotspotFlagsMixSecond();
    HotspotFlagsMixThird();
  }

  lemma HotspotFlags()
    ensures Sample(2026, 3, 3) == 0x21F2_AE70_AE1E_FAF3
  {
    hide XorWord, WrappingMul, Mix;
    HotspotFlagsKey();
    HotspotFlagsMix();
  }

  lemma HotspotFallbackKey()
    ensures XorWord(XorWord(0x7EA, WrappingMul(3, INDEX_MULTIPLIER)), WrappingMul(4, FIELD_MULTIPLIER)) == 0x265E_F874_387C_874F
  {
    hide Xor;
    Pairs();
    assert WrappingMul(3, INDEX_MULTIPLIER) == 0x751F_DE98_74B8_C709 && WrappingMul(4, FIELD_MULTIPLIER) == 0x5341_26EC_4CC4_47AC;
    Eight(0x0, 0x0, 0, 0, 0, 0, 0, 0, 0, 0, 1, 3, 1, 1, 0, 1, 3, 3);
    Eight(0x0, 0x751F, 0, 0, 0, 0, 0, 0, 0, 0, 3, 1, 3, 2, 2, 1, 2, 0);
    Eight(0x0, 0x751F_DE98, 0, 0, 0, 0, 0, 0, 0, 0, 1, 3, 1, 0, 2, 3, 2, 0);
    Eight(0x0, 0x751F_DE98_74B8, 0, 0, 1, 3, 3, 2, 2, 2, 3, 0, 1, 3, 0, 0, 2, 1);
    Eight(0x0, 0x0, 1, 3, 1, 1, 0, 1, 3, 3, 1, 1, 0, 3, 1, 0, 0, 1);
    Eight(0x751F, 0x5341, 3, 1, 3, 2, 2, 1, 2, 0, 0, 2, 1, 2, 3, 2, 3, 0);
    Eight(0x751F_DE98, 0x5341_26EC, 1, 3, 1, 0, 2, 3, 2, 0, 1, 0, 3, 0, 3, 0, 1, 0);
    Eight(0x751F_DE98_74B8, 0x5341_26EC_4CC4, 3, 0, 0, 0, 3, 2, 0, 3, 1, 0, 1, 3, 2, 2, 3, 0);
  }

  lemma HotspotFallbackMixFirst()
    ensures XorShift(0xC496_722D_B7C7_0364, 30) == 0xC496_722E_A59E_CBD2
  {
    hide Xor, Shr;
    Pairs();
    Shifted(0xC496_722D_B7C7_0364, 30);
    Eight(0x0, 0x0, 3, 0, 1, 0, 2, 1, 1, 2, 0, 0, 0, 0, 0, 0, 0, 0);
    Eight(0xC496, 0x0, 1, 3, 0, 2, 0, 2, 3, 1, 0, 0, 0, 0, 0, 0, 0, 3);
    Eight(0xC496_722D, 0x3, 2, 3, 1, 3, 3, 0, 1, 3, 0, 1, 0, 2, 1, 1, 2, 1);
    Eight(0xC496_722D_B7C7, 0x3_1259, 0, 0, 0, 3, 1, 2, 1, 0, 3, 0, 2, 0, 2, 3, 1, 2);
  }

  lemma HotspotFallbackMixSecond()
    ensures XorShift(0xBDD9_23FF_3B1C_24C2, 27) == 0xBDD9_23E8_8038_5B25
  {
    hide Xor, Shr;
    Pairs();
    Shifted(0xBDD9_23FF_3B1C_24C2, 27);
    Eight(0x0, 0x0, 2, 3, 3, 1, 3, 1, 2, 1, 0, 0, 0, 0, 0, 0, 0, 0);
    Eight(0xBDD9, 0x0, 0, 2, 0, 3, 3, 3, 3, 3, 0, 0, 0, 0, 0, 1, 1, 3);
    Eight(0xBDD9_23FF, 0x17, 0, 3, 2, 3, 0, 1, 3, 0, 2, 3, 2, 3, 0, 2, 1, 0);
    Eight(0xBDD9_23FF_3B1C, 0x17_BB24, 0, 2, 1, 0, 3, 0, 0, 2, 1, 3, 3, 3, 3, 2, 1, 3);
  }

  lemma HotspotFallbackMixThird()
    ensures XorShift(0xFFF3_4185_A2DE_1FF7, 31) == 0xFFF3_4184_5D38_9CFC
  {
    hide Xor, Shr;
    Pairs();
    Shifted(0xFFF3_4185_A2DE_1FF7, 31);
    Eight(0x0, 0x0, 3, 3, 3, 3, 3, 3, 0, 3, 0, 0, 0, 0, 0, 0, 0, 0);
    Eight(0xFFF3, 0x0, 1, 0, 0, 1, 2, 0, 1, 1, 0, 0, 0, 0, 0, 0, 0, 1);
    Eight(0xFFF3_4185, 0x1, 2, 2, 0, 2, 3, 1, 3, 2, 3, 3, 3, 3, 3, 2, 1, 2);
    Eight(0xFFF3_4185_A2DE, 0x1_FFE6, 0, 1, 3, 3, 3, 3, 1, 3, 2, 0, 0, 3, 0, 0, 2, 3);
  }

  lemma HotspotFallbackMixWords()
    ensures WrappingAdd(0x265E_F874_387C_874F, GOLDEN_GAMMA) == 0xC496_722D_B7C7_0364
    ensures WrappingMul(0xC496_722E_A59E_CBD2, MIX_MULTIPLIER_ONE) == 0xBDD9_23FF_3B1C_24C2
    ensures WrappingMul(0xBDD9_23E8_8038_5B25, MIX_MULTIPLIER_TWO) == 0xFFF3_4185_A2DE_1FF7
  {
  }

  lemma HotspotFallbackMix()
    ensures Mix(0x265E_F874_387C_874F) == 0xFFF3_4184_5D38_9CFC
  {
    hide XorShift, WrappingAdd, WrappingMul;
    HotspotFallbackMixWords();
    HotspotFallbackMixFirst();
    HotspotFallbackMixSecond();
    HotspotFallbackMixThird();
  }

  lemma HotspotFallback()
    ensures Sample(2026, 3, 4) == 0xFFF3_4184_5D38_9CFC
  {
    hide XorWord, WrappingMul, Mix;
    HotspotFallbackKey();
    HotspotFallbackMix();
  }

  // ------------------------------------------------------------- records

  /** The dataset of `workloads/smoke-uniform-v1.json`. */
  const SMOKE_UNIFORM := DatasetSpec(1024, 149, Uniform, -10_000, 10_000, 16, 2_500)

  /** The dataset of `workloads/smoke-hotspot-v1.json`. */
  const SMOKE_HOTSPOT := DatasetSpec(1024, 2026, Hotspot(3, 8_000), -64, 64, 8, 5_000)

  /** The published category of its second record. */
  lemma UniformCategory()
    ensures Category(SMOKE_UNIFORM, 1) == 6
  {
    hide Sample;
    UniformSelector();
  }

  /** A published record of the hotspot dataset whose hotspot draw fails. */
  lemma HotspotRecord()
    ensures RecordAt(SMOKE_HOTSPOT, 3) == Some(LogicalRecord(3, 7, 34, -30, 0))
  {
    hide Sample;
    HotspotCategory();
    HotspotFallback();
    HotspotA();
    HotspotB();
    HotspotFlags();
  }
}
