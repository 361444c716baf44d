/** Binary32 and binary64 values as bit patterns. Decoding, classification, comparison
    and negation are computed from the bits; the rounding operations stay uninterpreted
    and are only known through the IEEE 754-2019 facts collected in `Ieee`. */
module Floats {
  import opened Words

  type F32 = U32
  type F64 = U64

  const TWO23: nat := 0x80_0000
  const TWO31: nat := 0x8000_0000
  const TWO52: nat := 0x10_0000_0000_0000
  const TWO63: nat := 0x8000_0000_0000_0000

  /** The value carried by a floating-point datum. */
  datatype Ext = NaN | NegInf | Fin(r: real) | PosInf

  /** Operations whose rounding the model does not compute. */
  datatype FloatOps = FloatOps(
    fromI32: int -> F32,
    add32: (F32, F32) -> F32,
    mul32: (F32, F32) -> F32,
    widen: F32 -> F64,
    add64: (F64, F64) -> F64,
    round64: real -> Ext
  )

  function Exp2(k: int): (r: real)
    ensures r > 0.0
    decreases if k < 0 then -k else k
  {
    if k == 0 then 1.0 else if k > 0 then 2.0 * Exp2(k - 1) else Exp2(k + 1) / 2.0
  }

  function Signed(negative: bool, magnitude: real): Ext {
    Fin(if negative then -magnitude else magnitude)
  }

  /** Value of a binary32 interchange encoding (IEEE 754-2019 section 3.4). */
  function Val32(b: F32): Ext {
    var negative, exponent, fraction := b >= TWO31, (b / TWO23) % 256, b % TWO23;
    if exponent == 255 then
      if fraction != 0 then NaN else if negative then NegInf else PosInf
    else if exponent == 0 then
      Signed(negative, fraction as real * Exp2(-149))
    else
      Signed(negative, (TWO23 + fraction) as real * Exp2(exponent - 150))
  }

  /** Value of a binary64 interchange encoding. */
  function Val64(b: F64): Ext {
    var negative, exponent, fraction := b >= TWO63, (b / TWO52) % 2048, b % TWO52;
    if exponent == 2047 then
      if fraction != 0 then NaN else if negative then NegInf else PosInf
    else if exponent == 0 then
      Signed(negative, fraction as real * Exp2(-1074))
    else
      Signed(negative, (TWO52 + fraction) as real * Exp2(exponent - 1075))
  }

  predicate IsFinite32(b: F32) {
    Val32(b).Fin?
  }

  /** The ordered comparison `a <= b`; false as soon as one side is NaN (section 5.11). */
  predicate Leq(a: Ext, b: Ext) {
    match (a, b)
    case (NaN, _) => false
    case (_, NaN) => false
    case (NegInf, _) => true
    case (_, PosInf) => true
    case (Fin(x), Fin(y)) => x <= y
    case _ => false
  }

  predicate Lt(a: Ext, b: Ext) {
    Leq(a, b) && a != b
  }

  /** Flips the sign bit. */
  function Neg32(b: F32): F32 {
    (b + TWO31) % TWO32
  }

  function NegExt(x: Ext): Ext {
    match x
    case NaN => NaN
    case NegInf => PosInf
    case PosInf => NegInf
    case Fin(r) => Fin(-r)
  }

  /** The positive zero that starts every sum. */
  const ZERO64: F64 := 0

  lemma ZeroValue()
    ensures Val64(ZERO64) == Fin(0.0)
  {
  }

  ghost predicate Representable(v: real) {
    exists b: F64 :: Val64(b) == Fin(v)
  }

  /** What the scalar pipeline relies on: binary32-to-binary64 conversion is exact
      (section 5.4.2), a binary64 sum is the exact sum rounded by one monotone function
      that keeps representable values (section 4.3), and a positive infinity absorbs
      every finite or positive infinite addend (section 6.1). */
  ghost predicate Ieee(ops: FloatOps) {
    && (forall b: F32 :: Val64(ops.widen(b)) == Val32(b))
    && (forall v: real :: Representable(v) ==> ops.round64(v) == Fin(v))
    && (forall u: real, v: real :: u <= v ==> Leq(ops.round64(u), ops.round64(v)))
    && (forall a: F64, b: F64 :: Val64(a).Fin? && Val64(b).Fin? ==>
          Val64(ops.add64(a, b)) == ops.round64(Val64(a).r + Val64(b).r))
    && (forall a: F64, b: F64 :: (Val64(a).Fin? && Val64(b).PosInf?) || (Val64(a).PosInf? && (Val64(b).Fin? || Val64(b).PosInf?)) ==>
          Val64(ops.add64(a, b)) == PosInf)
  }

  // ------------------------------------------------------------ magnitudes

  lemma {:induction false} Exp2Step(k: int)
    ensures Exp2(k + 1) == 2.0 * Exp2(k)
  {
  }

  lemma {:induction false} Exp2Monotone(j: int, k: int)
    requires j <= k
    ensures Exp2(j) <= Exp2(k)
    decreases k - j
  {
    if j < k {
      Exp2Step(j);
      Exp2Monotone(j + 1, k);
    }
  }

  lemma {:induction false} Exp2Plus(k: int, n: nat)
    ensures Exp2(k + n) == Pow2(n) as real * Exp2(k)
  {
    if n > 0 {
      Exp2Step(k + n - 1);
      Exp2Plus(k, n - 1);
    }
  }

  lemma ScaledBelow(m: nat, bound: nat, x: real, y: real)
    requires m < bound && 0.0 < x <= y
    ensures 0.0 <= m as real * x < bound as real * y
  {
    assert m as real * x <= m as real * y;
    assert m as real * y < bound as real * y;
  }

  lemma Exp2Of128()
    ensures Exp2(128) == (2 * TWO23) as real * Exp2(104)
  {
    hide Exp2;
    Pow2Of64();
    Pow2Of8();
    Pow2Add(16, 8);
    Exp2Plus(104, 24);
  }

  /** Every finite binary32 magnitude is below 2^128. */
  lemma Finite32Bounded(b: F32)
    requires IsFinite32(b)
    ensures -Ceiling32() < Val32(b).r < Ceiling32()
  {
    hide Exp2;
    var exponent, fraction := (b / TWO23) % 256, b % TWO23;
    Exp2Of128();
    if exponent == 0 {
      Exp2Monotone(-149, 104);
      ScaledBelow(fraction, 2 * TWO23, Exp2(-149), Exp2(104));
    } else {
      Exp2Monotone(exponent - 150, 104);
      ScaledBelow(TWO23 + fraction, 2 * TWO23, Exp2(exponent - 150), Exp2(104));
    }
  }

  /** The three fields of a binary64 encoding. */
  lemma Fields64(sign: nat, exponent: nat, fraction: nat)
    requires sign < 2 && exponent < 2048 && fraction < TWO52
    ensures var b := sign * TWO63 + exponent * TWO52 + fraction;
            && b < TWO64 && (b >= TWO63 <==> sign == 1)
            && (b / TWO52) % 2048 == exponent && b % TWO52 == fraction
  {
    var b := sign * TWO63 + exponent * TWO52 + fraction;
    assert b == (sign * 2048 + exponent) * TWO52 + fraction;
    assert b / TWO52 == sign * 2048 + exponent;
  }

  lemma EncodeNormal(exponent: nat, fraction: nat)
    requires 0 < exponent < 2047 && fraction < TWO52
    ensures exponent * TWO52 + fraction < TWO63
    ensures Val64(exponent * TWO52 + fraction) == Fin((TWO52 + fraction) as real * Exp2(exponent - 1075))
  {
    Fields64(0, exponent, fraction);
  }

  /** Encodings that agree on exponent and fraction and differ in sign are opposite. */
  lemma OppositeSigns64(b: F64, n: F64)
    requires (b / TWO52) % 2048 == (n / TWO52) % 2048 && b % TWO52 == n % TWO52
    requires b >= TWO63 <==> n < TWO63
    ensures Val64(n) == NegExt(Val64(b))
  {
  }

  lemma Negated64(b: F64) returns (n: F64)
    ensures Val64(n) == NegExt(Val64(b))
  {
    hide Val64;
    var exponent, fraction := (b / TWO52) % 2048, b % TWO52;
    var sign := if b >= TWO63 then 0 else 1;
    Fields64(sign, exponent, fraction);
    n := sign * TWO63 + exponent * TWO52 + fraction;
    OppositeSigns64(b, n);
  }

  lemma OppositeSigns32(b: F32, n: F32)
    requires (b / TWO23) % 256 == (n / TWO23) % 256 && b % TWO23 == n % TWO23
    requires b >= TWO31 <==> n < TWO31
    ensures Val32(n) == NegExt(Val32(b))
  {
  }

  lemma Neg32Negates(b: F32)
    ensures Val32(Neg32(b)) == NegExt(Val32(b))
  {
    hide Val32;
    var n := Neg32(b);
    assert n == if b >= TWO31 then b - TWO31 else b + TWO31;
    assert n % TWO23 == b % TWO23;
    assert (n / TWO23) % 256 == (b / TWO23) % 256;
    OppositeSigns32(b, n);
  }

  /** `m` times 2^k is representable whenever `m` can be scaled into the significand without
      going below the exponent `low`. */
  lemma {:induction false} ScaledRepresentable(m: nat, k: int, low: int, scale: real)
    requires 0 < m < TWO53 && -1074 < low <= k <= 971 && scale == Exp2(k)
    requires m * Pow2(k - low) >= TWO52
    ensures Representable(m as real * scale)
    decreases k - low
  {
    hide Val64;
    if m >= TWO52 {
      EncodeNormal((k + 1075) as nat, m - TWO52);
    } else {
      Exp2Step(k - 1);
      HalfScale(m, scale, Exp2(k - 1));
      PowerLeft(m, k - low);
      ScaledRepresentable(2 * m, k - 1, low, Exp2(k - 1));
    }
  }

  lemma HalfScale(m: nat, scale: real, half: real)
    requires scale == 2.0 * half
    ensures m as real * scale == (2 * m) as real * half
  {
  }

  lemma PowerLeft(m: nat, n: nat)
    requires m < TWO52 <= m * Pow2(n)
    ensures n > 0 && TWO52 <= (2 * m) * Pow2(n - 1)
  {
  }

  lemma Pow2Of52()
    ensures Pow2(52) == TWO52
  {
    Pow2Of64();
    Pow2Of8();
    hide Pow2;
    Pow2Add(32, 16);
    Pow2Add(48, 4);
  }

  /** 2^128, just above every finite binary32 magnitude. */
  ghost function Ceiling32(): real {
    Exp2(128)
  }

  /** Multiples of 2^128 up to 2^53 - 1 are exact binary64 values, of either sign. */
  lemma BoundRepresentable(n: nat)
    requires n < TWO53
    ensures Representable(n as real * Ceiling32())
    ensures Representable(-(n as real * Ceiling32()))
  {
    hide Val64;
    var v := n as real * Ceiling32();
    if n == 0 {
      ZeroValue();
      assert v == 0.0;
    } else {
      Pow2Of52();
      ScaledRepresentable(n, 128, 76, Ceiling32());
      OppositeRepresentable(v);
    }
  }

  lemma OppositeRepresentable(v: real)
    requires Representable(v)
    ensures Representable(-v)
  {
    hide Val64;
    var b: F64 :| Val64(b) == Fin(v);
    var negated := Negated64(b);
  }
}
