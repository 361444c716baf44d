/** The `splitmix64-v1` mixing functions and their inverses. */
module SplitMix {
  import opened Words

  const GOLDEN_GAMMA: U64 := 0x9E37_79B9_7F4A_7C15
  const MIX_MULTIPLIER_ONE: U64 := 0xBF58_476D_1CE4_E5B9
  const MIX_MULTIPLIER_TWO: U64 := 0x94D0_49BB_1331_11EB
  const INDEX_MULTIPLIER: U64 := 0xD1B5_4A32_D192_ED03
  const FIELD_MULTIPLIER: U64 := 0x94D0_49BB_1331_11EB

  // Inverses of the three odd multipliers modulo 2^64.
  const UNMIX_ONE: U64 := 0x96DE_1B17_3F11_9089
  const UNMIX_TWO: U64 := 0x3196_42B2_D24D_8EC3
  const UNINDEX: U64 := 0x0610_6CCF_A448_E5AB

  /** One multiply round: a xor-shift followed by a wrapping product. */
  function Round(v: U64, shift: nat, multiplier: U64): U64 {
    WrappingMul(XorShift(v, shift), multiplier)
  }

  function Mix(input: U64): U64 {
    var v0 := WrappingAdd(input, GOLDEN_GAMMA);
    var v1 := Round(v0, 30, MIX_MULTIPLIER_ONE);
    var v2 := Round(v1, 27, MIX_MULTIPLIER_TWO);
    XorShift(v2, 31)
  }

  function Sample(seed: U64, index: U64, field: U64): U64 {
    Mix(XorWord(XorWord(seed, WrappingMul(index, INDEX_MULTIPLIER)),
                WrappingMul(field, FIELD_MULTIPLIER)))
  }

  /** Inverse of `XorShift` for shifts of at least 22. */
  function UnXorShift(y: U64, shift: nat): U64 {
    ShrBound(y, 2 * shift);
    XorWord(XorShift(y, shift), Shr(y, 2 * shift))
  }

  lemma UnXorShiftXorShift(v: U64, shift: nat)
    requires 3 * shift >= 64
    ensures UnXorShift(XorShift(v, shift), shift) == v
  {
    XorShiftInverse(v, shift);
  }

  function Unround(w: U64, shift: nat, inverse: U64): U64 {
    UnXorShift(WrappingMul(w, inverse), shift)
  }

  /** Runs the four mixing steps backwards. */
  function Unmix(output: U64): U64 {
    var v2 := UnXorShift(output, 31);
    var v1 := Unround(v2, 27, UNMIX_TWO);
    var v0 := Unround(v1, 30, UNMIX_ONE);
    WrappingAdd(v0, TWO64 - GOLDEN_GAMMA)
  }

  lemma UnroundRound(v: U64, shift: nat, multiplier: U64, inverse: U64)
    requires 3 * shift >= 64 && (multiplier * inverse) % TWO64 == 1
    ensures Unround(Round(v, shift, multiplier), shift, inverse) == v
  {
    MulInverse(XorShift(v, shift), multiplier, inverse);
    UnXorShiftXorShift(v, shift);
  }

  lemma UnmixMix(x: U64)
    ensures Unmix(Mix(x)) == x
  {
    hide Round, Unround, XorShift, UnXorShift, WrappingAdd, WrappingMul, XorWord;
    var v0 := WrappingAdd(x, GOLDEN_GAMMA);
    var v1 := Round(v0, 30, MIX_MULTIPLIER_ONE);
    var v2 := Round(v1, 27, MIX_MULTIPLIER_TWO);
    UnXorShiftXorShift(v2, 31);
    UnroundRound(v1, 27, MIX_MULTIPLIER_TWO, UNMIX_TWO);
    UnroundRound(v0, 30, MIX_MULTIPLIER_ONE, UNMIX_ONE);
    AddInverse(x, GOLDEN_GAMMA);
  }

  /** Xor-shift inversion the other way round, for the surjectivity half. */
  lemma XorShiftUnXorShift(y: U64, shift: nat)
    requires 3 * shift >= 64
    ensures XorShift(UnXorShift(y, shift), shift) == y
  {
    var s1, s2 := Shr(y, shift), Shr(y, 2 * shift);
    var x := UnXorShift(y, shift);
    ShrXor(XorShift(y, shift), s2, shift);
    ShrXor(y, s1, shift);
    ShrShr(y, shift, shift);
    ShrShr(y, 2 * shift, shift);
    Pow2Of64();
    ShrOut(y, 64, 3 * shift);
    XorZero(Xor(s1, s2));
    assert Shr(x, shift) == Xor(s1, s2);
    XorAssociative(y, s1, s2);
    XorCancels(y, Xor(s1, s2));
  }

  lemma RoundUnround(w: U64, shift: nat, multiplier: U64, inverse: U64)
    requires 3 * shift >= 64 && (inverse * multiplier) % TWO64 == 1
    ensures Round(Unround(w, shift, inverse), shift, multiplier) == w
  {
    XorShiftUnXorShift(WrappingMul(w, inverse), shift);
    MulInverse(w, inverse, multiplier);
  }

  lemma MixUnmix(y: U64)
    ensures Mix(Unmix(y)) == y
  {
    hide Round, Unround, XorShift, UnXorShift, WrappingAdd, WrappingMul, XorWord;
    var v2 := UnXorShift(y, 31);
    var v1 := Unround(v2, 27, UNMIX_TWO);
    var v0 := Unround(v1, 30, UNMIX_ONE);
    AddInverse(v0, TWO64 - GOLDEN_GAMMA);
    assert WrappingAdd(Unmix(y), GOLDEN_GAMMA) == v0;
    RoundUnround(v1, 30, MIX_MULTIPLIER_ONE, UNMIX_ONE);
    RoundUnround(v2, 27, MIX_MULTIPLIER_TWO, UNMIX_TWO);
    XorShiftUnXorShift(y, 31);
  }

  /** `Mix` permutes the 64-bit words. */
  lemma MixIsPermutation(x: U64, y: U64)
    ensures Mix(x) == Mix(y) <==> x == y
    ensures exists pre: U64 :: Mix(pre) == y
  {
    UnmixMix(x);
    UnmixMix(y);
    MixUnmix(y);
  }

  lemma XorWordInjective(a: U64, b: U64, mask: U64)
    ensures XorWord(a, mask) == XorWord(b, mask) <==> a == b
    ensures XorWord(mask, a) == XorWord(mask, b) <==> a == b
  {
    XorCancels(a, mask);
    XorCancels(b, mask);
    XorSymmetric(mask, a);
    XorSymmetric(mask, b);
  }

  lemma WrappingMulInjective(a: U64, b: U64, unit: nat, inverse: nat)
    requires (unit * inverse) % TWO64 == 1
    ensures WrappingMul(a, unit) == WrappingMul(b, unit) <==> a == b
  {
    MulInverse(a, unit, inverse);
    MulInverse(b, unit, inverse);
  }

  /** For one seed and field, distinct indices draw distinct samples. */
  lemma SampleInjective(seed: U64, field: U64, i: U64, j: U64)
    ensures Sample(seed, i, field) == Sample(seed, j, field) <==> i == j
  {
    hide Round, Unround, XorShift, UnXorShift, WrappingAdd, WrappingMul, XorWord;
    var f := WrappingMul(field, FIELD_MULTIPLIER);
    var a, b := WrappingMul(i, INDEX_MULTIPLIER), WrappingMul(j, INDEX_MULTIPLIER);
    MixIsPermutation(XorWord(XorWord(seed, a), f), XorWord(XorWord(seed, b), f));
    XorWordInjective(XorWord(seed, a), XorWord(seed, b), f);
    XorWordInjective(a, b, seed);
    WrappingMulInjective(i, j, INDEX_MULTIPLIER, UNINDEX);
  }

  /** The seed matters everywhere: for one index and field, distinct seeds draw distinct
      samples. */
  lemma SeedInjective(index: U64, field: U64, s: U64, t: U64)
    ensures Sample(s, index, field) == Sample(t, index, field) <==> s == t
  {
    hide Round, Unround, XorShift, UnXorShift, WrappingAdd, WrappingMul, XorWord;
    var i, f := WrappingMul(index, INDEX_MULTIPLIER), WrappingMul(field, FIELD_MULTIPLIER);
    MixIsPermutation(XorWord(XorWord(s, i), f), XorWord(XorWord(t, i), f));
    XorWordInjective(XorWord(s, i), XorWord(t, i), f);
    XorWordInjective(s, t, i);
  }

  /** The fields of one record draw from different samples. */
  lemma FieldInjective(seed: U64, index: U64, f: U64, g: U64)
    ensures Sample(seed, index, f) == Sample(seed, index, g) <==> f == g
  {
    hide Round, Unround, XorShift, UnXorShift, WrappingAdd, WrappingMul, XorWord;
    var k := XorWord(seed, WrappingMul(index, INDEX_MULTIPLIER));
    var a, b := WrappingMul(f, FIELD_MULTIPLIER), WrappingMul(g, FIELD_MULTIPLIER);
    MixIsPermutation(XorWord(k, a), XorWord(k, b));
    XorWordInjective(a, b, k);
    WrappingMulInjective(f, g, FIELD_MULTIPLIER, UNMIX_TWO);
  }
}
