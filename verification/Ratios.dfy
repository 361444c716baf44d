/** 128-bit ratios and overflow-checked sums of the benchmark analysis. */
module Ratios {
  import opened Words

  datatype ArithmeticError =
    | ZeroDenominator | ExceedsU64 | ExceedsPortable | ExceedsU32 | AdditionOverflow
    | ZeroTotal | RemainderInvalid

  /** `bits.Mul64`. */
  function Mul64(x: U64, y: U64): (product: (U64, U64))
    ensures product.0 * TWO64 + product.1 == x * y
  {
    HighWord(x, y);
    (x * y / TWO64, x * y % TWO64)
  }

  lemma HighWord(x: U64, y: U64)
    ensures x * y / TWO64 < TWO64
  {
    ProductMonotone(x, TWO64, y);
    Quotient(x * y, TWO64, TWO64);
  }

  lemma ProductMonotone(a: nat, b: nat, c: nat)
    requires a <= b
    ensures a * c <= b * c
  {
  }

  /** `bits.Div64`, which panics unless the quotient fits a word. */
  function Div64(high: U64, low: U64, divisor: U64): (result: (U64, U64))
    requires high < divisor
    ensures result.0 * divisor + result.1 == high * TWO64 + low && result.1 < divisor
  {
    var dividend := high * TWO64 + low;
    assert dividend < divisor * TWO64 by { assert high + 1 <= divisor; assert (high + 1) * TWO64 <= divisor * TWO64; }
    Quotient(dividend, divisor, TWO64);
    (dividend / divisor, dividend % divisor)
  }

  lemma Quotient(n: nat, d: nat, bound: nat)
    requires d > 0
    ensures n / d < bound <==> n < d * bound
  {
    var q := n / d;
    assert n == q * d + n % d;
    if q < bound {
      assert (q + 1) * d <= bound * d;
    } else {
      assert q * d >= bound * d;
    }
  }

  lemma UniqueQuotient(n: nat, d: nat, q: nat, r: nat)
    requires n == q * d + r && r < d
    ensures n / d == q && n % d == r
  {
    Quotient(n, d, q);
    Quotient(n, d, q + 1);
    assert n < d * (q + 1);
    assert !(n < d * q);
  }

  function ScaledRatio(numerator: U64, denominator: U64, scale: U64): Result<U64, ArithmeticError> {
    if denominator == 0 then Err(ZeroDenominator)
    else
      var (high, low) := Mul64(numerator, scale);
      if high >= denominator then Err(ExceedsU64)
      else
        var (quotient, _) := Div64(high, low, denominator);
        if quotient > MAX_SAFE_INTEGER then Err(ExceedsPortable) else Ok(quotient)
  }

  /** The ratio is exact or refused: zero denominators, quotients that do not fit a word and
      quotients above the portable integers are the only failures. */
  lemma ScaledRatioExact(numerator: U64, denominator: U64, scale: U64)
    ensures ScaledRatio(numerator, denominator, scale) ==
            if denominator == 0 then Err(ZeroDenominator)
            else if numerator * scale / denominator >= TWO64 then Err(ExceedsU64)
            else if numerator * scale / denominator > MAX_SAFE_INTEGER then Err(ExceedsPortable)
            else Ok(numerator * scale / denominator)
  {
    if denominator > 0 {
      var (high, low) := Mul64(numerator, scale);
      HighAgainstQuotient(numerator * scale, high, low, denominator);
      if high < denominator {
        var (quotient, residual) := Div64(high, low, denominator);
        UniqueQuotient(numerator * scale, denominator, quotient, residual);
      }
    }
  }

  /** The guard before the division is exactly that the quotient fits a word. */
  lemma HighAgainstQuotient(product: nat, high: U64, low: U64, denominator: U64)
    requires product == high * TWO64 + low && denominator > 0
    ensures high >= denominator <==> product / denominator >= TWO64
  {
    Quotient(product, denominator, TWO64);
    if high >= denominator {
      assert high * TWO64 >= denominator * TWO64;
    } else {
      assert (high + 1) * TWO64 <= denominator * TWO64;
    }
  }

  function RatioBasisPoints(numerator: U64, denominator: U64): Result<U32, ArithmeticError> {
    match ScaledRatio(numerator, denominator, 10_000)
    case Err(e) => Err(e)
    case Ok(ratio) => if ratio > MAX_U32 then Err(ExceedsU32) else Ok(ratio)
  }

  /** A ratio of a part to its whole is at most the scale, so no guard can fire. */
  lemma PartOfWhole(part: U64, whole: U64)
    requires part <= whole && whole > 0
    ensures ScaledRatio(part, whole, 10_000) == Ok(part * 10_000 / whole) && part * 10_000 / whole <= 10_000
  {
    ScaledRatioExact(part, whole, 10_000);
    assert part * 10_000 <= whole * 10_000 < whole * 10_001;
    Quotient(part * 10_000, whole, 10_001);
  }

  // -------------------------------------------------------------- checked sums

  function Sum(values: seq<nat>): nat {
    if values == [] then 0 else Sum(values[..|values| - 1]) + values[|values| - 1]
  }

  lemma {:induction false} SumPrefix(values: seq<nat>, k: nat)
    requires k <= |values|
    ensures Sum(values[..k]) <= Sum(values)
    decreases |values| - k
  {
    if k < |values| {
      assert values[..k + 1][..k] == values[..k];
      SumPrefix(values, k + 1);
    } else {
      assert values[..k] == values;
    }
  }

  lemma {:induction false} SumElement(values: seq<nat>, i: nat)
    requires i < |values|
    ensures values[i] <= Sum(values)
  {
    SumPrefix(values, i + 1);
    assert values[..i + 1][..i] == values[..i];
  }

  method AddUint64(left: U64, right: U64) returns (sum: U64, overflow: bool)
    ensures overflow <==> left + right >= TWO64
    ensures !overflow ==> sum == left + right
  {
    if MAX_U64 - left < right {
      return 0, true;
    }
    return left + right, false;
  }

  function CheckedSum(values: seq<U64>): Result<U64, ArithmeticError> {
    if Sum(values) >= TWO64 then Err(AdditionOverflow) else Ok(Sum(values))
  }

  /** Overflow of a partial sum is overflow of the whole. */
  method SumUint64(values: seq<U64>) returns (r: Result<U64, ArithmeticError>)
    ensures r == CheckedSum(values)
  {
    var total: U64 := 0;
    for i := 0 to |values|
      invariant total == Sum(values[..i])
    {
      assert values[..i + 1][..i] == values[..i];
      SumPrefix(values, i + 1);
      var overflow: bool;
      total, overflow := AddUint64(total, values[i]);
      if overflow {
        return Err(AdditionOverflow);
      }
    }
    assert values[..|values|] == values;
    return Ok(total);
  }
}
