/** Machine integers shared by the controller and the engine. A word is a bounded
    natural; wrap-around and the bitwise operators are written out on its digits. */
module Words {

  const TWO64: nat := 0x1_0000_0000_0000_0000
  const TWO32: nat := 0x1_0000_0000
  const TWO53: nat := 0x20_0000_0000_0000

  const MAX_U64: nat := TWO64 - 1
  const MAX_U32: nat := TWO32 - 1
  /** Largest integer every JSON consumer keeps exactly. */
  const MAX_SAFE_INTEGER: nat := TWO53 - 1

  type U64 = x: nat | x < TWO64
  type U32 = x: nat | x < TWO32

  datatype Option<+T> = None | Some(value: T)

  datatype Result<+T, +E> = Ok(value: T) | Err(error: E)

  function WrappingAdd(left: nat, right: nat): U64 {
    (left + right) % TWO64
  }

  function WrappingMul(left: nat, right: nat): U64 {
    (left * right) % TWO64
  }

  /** Bitwise exclusive or, one binary digit at a time. */
  function Xor(a: nat, b: nat): nat
    decreases a + b
  {
    if a == 0 && b == 0 then 0 else (a + b) % 2 + 2 * Xor(a / 2, b / 2)
  }

  /** Bitwise and. */
  function And(a: nat, b: nat): nat
    decreases a + b
  {
    if a == 0 || b == 0 then 0 else (a % 2) * (b % 2) + 2 * And(a / 2, b / 2)
  }

  /** Logical shift right. */
  function Shr(a: nat, k: nat): nat {
    if k == 0 then a else Shr(a / 2, k - 1)
  }

  function Pow2(k: nat): (p: nat)
    ensures p >= 1
  {
    if k == 0 then 1 else 2 * Pow2(k - 1)
  }

  lemma {:induction false} Pow2Add(a: nat, b: nat)
    ensures Pow2(a + b) == Pow2(a) * Pow2(b)
  {
    if a > 0 {
      Pow2Add(a - 1, b);
      assert Pow2(a + b) == 2 * Pow2(a - 1 + b);
    }
  }

  lemma Pow2Of8()
    ensures Pow2(4) == 16 && Pow2(8) == 256
  {
    assert Pow2(2) == 4;
    assert Pow2(4) == 16;
    assert Pow2(6) == 64;
  }

  lemma Pow2Of64()
    ensures Pow2(16) == 0x1_0000 && Pow2(32) == TWO32 && Pow2(64) == TWO64
  {
    Pow2Of8();
    hide Pow2;
    Pow2Add(8, 8);
    Pow2Add(16, 16);
    Pow2Add(32, 32);
  }

  // ------------------------------------------------------------- xor algebra

  lemma {:induction false} XorSymmetric(a: nat, b: nat)
    ensures Xor(a, b) == Xor(b, a)
    decreases a + b
  {
    if a + b > 0 {
      XorSymmetric(a / 2, b / 2);
    }
  }

  lemma {:induction false} XorDigits(a: nat, b: nat)
    ensures Xor(a, b) % 2 == (a + b) % 2 && Xor(a, b) / 2 == Xor(a / 2, b / 2)
  {
    if a + b > 0 {
      TwoDigits((a + b) % 2, Xor(a / 2, b / 2));
    }
  }

  lemma TwoDigits(low: nat, high: nat)
    requires low < 2
    ensures (low + 2 * high) % 2 == low && (low + 2 * high) / 2 == high
  {
  }

  lemma ParityOfSum(a: nat, b: nat, c: nat)
    ensures ((a + b) % 2 + c) % 2 == (a + (b + c) % 2) % 2
  {
  }

  lemma ParityOf(a: nat, b: nat)
    ensures (a % 2 + b) % 2 == (a + b) % 2 == (a + b % 2) % 2
  {
  }

  lemma {:induction false} XorAssociative(a: nat, b: nat, c: nat)
    ensures Xor(Xor(a, b), c) == Xor(a, Xor(b, c))
    decreases a + b + c
  {
    if a + b + c > 0 {
      hide Xor;
      XorAssociative(a / 2, b / 2, c / 2);
      AssociativeDigits(a, b, c);
      SameDigits(Xor(Xor(a, b), c), Xor(a, Xor(b, c)));
    }
  }

  lemma AssociativeDigits(a: nat, b: nat, c: nat)
    requires Xor(Xor(a / 2, b / 2), c / 2) == Xor(a / 2, Xor(b / 2, c / 2))
    ensures Xor(Xor(a, b), c) % 2 == Xor(a, Xor(b, c)) % 2
    ensures Xor(Xor(a, b), c) / 2 == Xor(a, Xor(b, c)) / 2
  {
    hide Xor;
    XorDigits(a, b);
    XorDigits(b, c);
    XorDigits(Xor(a, b), c);
    XorDigits(a, Xor(b, c));
    assert Xor(Xor(a, b), c) % 2 == Xor(a, Xor(b, c)) % 2 by {
      ParityOf(Xor(a, b), c);
      ParityOf(a, Xor(b, c));
      ParityOfSum(a, b, c);
    }
  }

  lemma SameDigits(m: nat, n: nat)
    requires m % 2 == n % 2 && m / 2 == n / 2
    ensures m == n
  {
  }

  lemma {:induction false} XorZero(a: nat)
    ensures Xor(a, 0) == a && Xor(0, a) == a
  {
    if a > 0 {
      XorZero(a / 2);
    }
  }

  lemma {:induction false} XorSelf(a: nat)
    ensures Xor(a, a) == 0
  {
    if a > 0 {
      XorSelf(a / 2);
    }
  }

  /** Exclusive or with a fixed mask undoes itself. */
  lemma XorCancels(a: nat, mask: nat)
    ensures Xor(Xor(a, mask), mask) == a
  {
    XorAssociative(a, mask, mask);
    XorSelf(mask);
    XorZero(a);
  }

  lemma {:induction false} XorBound(a: nat, b: nat, k: nat)
    requires a < Pow2(k) && b < Pow2(k)
    ensures Xor(a, b) < Pow2(k)
  {
    if k > 0 {
      XorBound(a / 2, b / 2, k - 1);
    }
  }

  lemma {:induction false} ShrXor(a: nat, b: nat, k: nat)
    ensures Shr(Xor(a, b), k) == Xor(Shr(a, k), Shr(b, k))
  {
    if k > 0 {
      ShrXor(a / 2, b / 2, k - 1);
    }
  }

  lemma {:induction false} ShrShr(a: nat, j: nat, k: nat)
    ensures Shr(Shr(a, j), k) == Shr(a, j + k)
  {
    if j > 0 {
      ShrShr(a / 2, j - 1, k);
    }
  }

  lemma {:induction false} ShrBound(a: nat, k: nat)
    ensures Shr(a, k) <= a
  {
    if k > 0 {
      ShrBound(a / 2, k - 1);
    }
  }

  lemma {:induction false} ShrOut(a: nat, k: nat, shift: nat)
    requires a < Pow2(k) && k <= shift
    ensures Shr(a, shift) == 0
  {
    if shift > 0 {
      ShrOut(a / 2, if k == 0 then 0 else k - 1, shift - 1);
    }
  }

  /** Exclusive or on 64-bit words. */
  function XorWord(a: U64, b: U64): U64 {
    Pow2Of64();
    XorBound(a, b, 64);
    Xor(a, b)
  }

  /** The word `a ^ (a >> shift)`. */
  function XorShift(a: U64, shift: nat): U64 {
    ShrBound(a, shift);
    XorWord(a, Shr(a, shift))
  }

  /** Folding a xor-shift twice more restores the word once three shifts leave it. */
  lemma XorShiftInverse(a: U64, shift: nat)
    requires 3 * shift >= 64
    ensures var y := XorShift(a, shift);
            Xor(Xor(y, Shr(y, shift)), Shr(y, 2 * shift)) == a
  {
    var s1, s2, s3 := Shr(a, shift), Shr(a, 2 * shift), Shr(a, 3 * shift);
    var y := XorShift(a, shift);
    ShrXor(a, s1, shift);
    ShrShr(a, shift, shift);
    assert Shr(y, shift) == Xor(s1, s2);
    ShrXor(a, s1, 2 * shift);
    ShrShr(a, shift, 2 * shift);
    Pow2Of64();
    ShrOut(a, 64, 3 * shift);
    XorZero(s2);
    assert Shr(y, 2 * shift) == s2;
    XorAssociative(Xor(a, s1), Xor(s1, s2), s2);
    XorCancels(s1, s2);
    XorCancels(a, s1);
  }

  // ---------------------------------------------------- wrapping arithmetic

  lemma ModUnique(a: int, q: int, r: int)
    requires a == q * TWO64 + r && 0 <= r < TWO64
    ensures a % TWO64 == r
  {
  }

  /** Reducing a factor first does not change a wrapped product. */
  lemma WrappingMulReduces(a: nat, b: nat)
    ensures WrappingMul(a % TWO64, b) == WrappingMul(a, b)
  {
    var q := a / TWO64;
    var p := (a % TWO64) * b;
    assert a * b == p + q * b * TWO64 by {
      assert a == q * TWO64 + a % TWO64;
    }
    ModUnique(a * b, p / TWO64 + q * b, p % TWO64);
  }

  /** Multiplying by a unit of Z/2^64 is undone by its inverse. */
  lemma MulInverse(a: U64, unit: nat, inverse: nat)
    requires (unit * inverse) % TWO64 == 1
    ensures WrappingMul(WrappingMul(a, unit), inverse) == a
  {
    WrappingMulReduces(a * unit, inverse);
    var q := (unit * inverse) / TWO64;
    assert a * unit * inverse == a * (unit * inverse) == a * (q * TWO64 + 1) == (a * q) * TWO64 + a;
    ModUnique(a * unit * inverse, a * q, a);
  }

  lemma AddInverse(a: U64, c: U64)
    ensures WrappingAdd(WrappingAdd(a, c), TWO64 - c) == a
  {
  }
}
