/** Operations that satisfy the facts collected in `Floats.Ieee`: binary64 addition rounded
    toward negative infinity, one of the rounding directions of IEEE 754-2019 (section
    4.3.2), and the exact widening of binary32. */
module Rounding {
  import opened Words
  import opened Floats

  /** The largest value at most `v` among the first `n` encodings. */
  ghost function Largest(n: nat, v: real): (x: Ext)
    requires n <= TWO64
    ensures x.NegInf? || x.Fin?
  {
    if n == 0 then NegInf
    else
      var rest := Largest(n - 1, v);
      var last := Val64(n - 1);
      if last.Fin? && last.r <= v && Leq(rest, last) then last else rest
  }

  lemma {:induction false} LargestBelow(n: nat, v: real)
    requires n <= TWO64
    ensures Largest(n, v).Fin? ==> Largest(n, v).r <= v && Representable(Largest(n, v).r)
  {
    hide Val64;
    if n > 0 {
      LargestBelow(n - 1, v);
      var b: F64 := n - 1;
      assert Val64(b) == Val64(n - 1);
    }
  }

  lemma {:induction false} LargestBounds(n: nat, v: real, b: F64)
    requires b < n <= TWO64 && Val64(b).Fin? && Val64(b).r <= v
    ensures Leq(Val64(b), Largest(n, v))
  {
    hide Val64;
    if b < n - 1 {
      LargestBounds(n - 1, v, b);
    }
  }

  ghost function RoundDown(v: real): Ext {
    Largest(TWO64, v)
  }

  lemma RoundDownAt(v: real, b: F64)
    requires Val64(b).Fin? && Val64(b).r <= v
    ensures Leq(Val64(b), RoundDown(v))
  {
    hide Largest, Val64;
    LargestBounds(TWO64, v, b);
  }

  lemma RoundDownBelow(v: real)
    ensures RoundDown(v).NegInf? || RoundDown(v).Fin?
    ensures RoundDown(v).Fin? ==> RoundDown(v).r <= v && Representable(RoundDown(v).r)
  {
    hide Largest;
    LargestBelow(TWO64, v);
  }

  /** Representable values are kept. */
  lemma RoundDownKeeps(v: real)
    requires Representable(v)
    ensures RoundDown(v) == Fin(v)
  {
    hide RoundDown, Val64;
    var b: F64 :| Val64(b) == Fin(v);
    RoundDownAt(v, b);
    RoundDownBelow(v);
  }

  lemma RoundDownMonotone(u: real, v: real)
    requires u <= v
    ensures Leq(RoundDown(u), RoundDown(v))
  {
    hide RoundDown, Val64;
    RoundDownBelow(u);
    RoundDownBelow(v);
    if RoundDown(u).Fin? {
      var b: F64 :| Val64(b) == Fin(RoundDown(u).r);
      RoundDownAt(v, b);
    }
  }

  // -------------------------------------------------------------- encodings

  const POS_INF64: F64 := 2047 * TWO52
  const NEG_INF64: F64 := TWO63 + 2047 * TWO52

  ghost predicate Encodable(x: Ext) {
    x.Fin? ==> Representable(x.r)
  }

  /** Some binary64 encoding of a value. */
  ghost function Encode(x: Ext): (b: F64)
    requires Encodable(x)
  {
    match x
    case NaN => POS_INF64 + 1
    case PosInf => POS_INF64
    case NegInf => NEG_INF64
    case Fin(r) =>
      var b: F64 :| Val64(b) == Fin(r);
      b
  }

  lemma EncodeDecodes(x: Ext)
    requires Encodable(x)
    ensures Val64(Encode(x)) == x
  {
    Fields64(0, 2047, 0);
    Fields64(0, 2047, 1);
    Fields64(1, 2047, 0);
  }

  // ---------------------------------------------------------------- widening

  lemma Pow2AtLeast(n: nat)
    ensures Pow2(n) >= 1
  {
    assert Pow2(n) > 0;
  }

  /** A binary32 significand times a power of two in its exponent range is a binary64 value. */
  lemma SignificandWidens(m: nat, k: int, scale: real, magnitude: real)
    requires m < 2 * TWO23 && -149 <= k <= 104 && scale == Exp2(k) && magnitude == m as real * scale
    ensures Representable(magnitude)
  {
    hide Val64, Exp2;
    if m == 0 {
      ZeroValue();
      assert magnitude == 0.0;
    } else {
      hide Representable;
      Pow2Of52();
      PowerCovers(m, 52);
      ScaledRepresentable(m, k, k - 52, scale);
    }
  }

  lemma PowerCovers(m: nat, n: nat)
    requires m > 0
    ensures m * Pow2(n) >= Pow2(n)
  {
    Pow2AtLeast(n);
  }

  lemma SubnormalValue(b: F32, scale: real) returns (magnitude: real)
    requires (b / TWO23) % 256 == 0 && scale == Exp2(-149)
    ensures magnitude == (b % TWO23) as real * scale
    ensures Val32(b) == Fin(magnitude) || Val32(b) == Fin(-magnitude)
  {
    magnitude := (b % TWO23) as real * scale;
    if b < TWO31 {
      assert Val32(b) == Fin((b % TWO23) as real * Exp2(-149));
    } else {
      assert Val32(b) == Fin(-((b % TWO23) as real * Exp2(-149)));
    }
  }

  lemma NormalValue(b: F32, k: int, scale: real) returns (magnitude: real)
    requires 0 < (b / TWO23) % 256 < 255 && k == (b / TWO23) % 256 - 150 && scale == Exp2(k)
    ensures magnitude == (TWO23 + b % TWO23) as real * scale
    ensures Val32(b) == Fin(magnitude) || Val32(b) == Fin(-magnitude)
  {
    magnitude := (TWO23 + b % TWO23) as real * scale;
    if b < TWO31 {
      assert Val32(b) == Fin((TWO23 + b % TWO23) as real * Exp2(k));
    } else {
      assert Val32(b) == Fin(-((TWO23 + b % TWO23) as real * Exp2(k)));
    }
  }

  lemma SpecialValue(b: F32)
    requires (b / TWO23) % 256 == 255
    ensures Encodable(Val32(b))
  {
  }

  lemma OppositeEncodable(magnitude: real)
    requires Representable(magnitude)
    ensures Encodable(Fin(magnitude)) && Encodable(Fin(-magnitude))
  {
    hide Val64, Representable;
    OppositeRepresentable(magnitude);
  }

  /** Every binary32 value is a binary64 value. */
  lemma Widens(b: F32)
    ensures Encodable(Val32(b))
  {
    hide Val64, Val32, Exp2, Representable, Encodable;
    var exponent, fraction := (b / TWO23) % 256, b % TWO23;
    if exponent == 255 {
      SpecialValue(b);
    } else if exponent == 0 {
      var magnitude := SubnormalValue(b, Exp2(-149));
      SignificandWidens(fraction, -149, Exp2(-149), magnitude);
      OppositeEncodable(magnitude);
    } else {
      var k := exponent - 150;
      var magnitude := NormalValue(b, k, Exp2(k));
      SignificandWidens(TWO23 + fraction, k, Exp2(k), magnitude);
      OppositeEncodable(magnitude);
    }
  }

  ghost function Widen(b: F32): F64 {
    Widens(b);
    Encode(Val32(b))
  }

  // ---------------------------------------------------------------- addition

  /** The exact sum rounded down; infinities as in section 6.1. */
  ghost function AddValue(x: Ext, y: Ext): Ext {
    match (x, y)
    case (Fin(r), Fin(s)) => RoundDown(r + s)
    case (Fin(_), PosInf) => PosInf
    case (PosInf, Fin(_)) => PosInf
    case (PosInf, PosInf) => PosInf
    case (Fin(_), NegInf) => NegInf
    case (NegInf, Fin(_)) => NegInf
    case (NegInf, NegInf) => NegInf
    case _ => NaN
  }

  lemma AddEncodable(x: Ext, y: Ext)
    ensures Encodable(AddValue(x, y))
  {
    hide RoundDown, Representable;
    if x.Fin? && y.Fin? {
      RoundDownBelow(x.r + y.r);
    }
  }

  ghost function Add(a: F64, b: F64): F64 {
    AddEncodable(Val64(a), Val64(b));
    Encode(AddValue(Val64(a), Val64(b)))
  }

  lemma AddDecodes(a: F64, b: F64)
    ensures Val64(Add(a, b)) == AddValue(Val64(a), Val64(b))
  {
    hide Val64, AddValue, Encode;
    AddEncodable(Val64(a), Val64(b));
    EncodeDecodes(AddValue(Val64(a), Val64(b)));
  }

  lemma WidenDecodes(b: F32)
    ensures Val64(Widen(b)) == Val32(b)
  {
    hide Val64, Val32, Encode;
    Widens(b);
    EncodeDecodes(Val32(b));
  }

  /** Whatever the binary32 operations are. */
  ghost function Downward(fromI32: int -> F32, add32: (F32, F32) -> F32, mul32: (F32, F32) -> F32): FloatOps {
    FloatOps(fromI32, add32, mul32, b => Widen(b), (a, b) => Add(a, b), v => RoundDown(v))
  }

  lemma RoundsRepresentable(ops: FloatOps)
    requires forall v: real :: ops.round64(v) == RoundDown(v)
    ensures forall v: real :: Representable(v) ==> ops.round64(v) == Fin(v)
    ensures forall u: real, v: real :: u <= v ==> Leq(ops.round64(u), ops.round64(v))
  {
    hide RoundDown, Representable, Leq;
    forall v: real | Representable(v)
      ensures ops.round64(v) == Fin(v)
    {
      RoundDownKeeps(v);
    }
    forall u: real, v: real | u <= v
      ensures Leq(ops.round64(u), ops.round64(v))
    {
      RoundDownMonotone(u, v);
    }
  }

  /** The assumed rounding facts hold of an actual arithmetic. */
  lemma DownwardIsIeee(fromI32: int -> F32, add32: (F32, F32) -> F32, mul32: (F32, F32) -> F32)
    ensures Ieee(Downward(fromI32, add32, mul32))
  {
    hide Val64, Val32, Widen, Add, RoundDown, Representable, Leq;
    var ops := Downward(fromI32, add32, mul32);
    RoundsRepresentable(ops);
    forall b: F32
      ensures Val64(ops.widen(b)) == Val32(b)
    {
      WidenDecodes(b);
    }
    forall a: F64, b: F64
      ensures Val64(ops.add64(a, b)) == AddValue(Val64(a), Val64(b))
    {
      AddDecodes(a, b);
    }
  }
}
