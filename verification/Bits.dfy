/** What the word operators do to the single binary digits of their operands. */
module Bits {
  import opened Words
  import opened Ratios

  /** Digit `k` of a number. */
  function Bit(a: nat, k: nat): (b: nat)
    ensures b < 2
  {
    a / Pow2(k) % 2
  }

  lemma BitZero(a: nat)
    ensures Bit(a, 0) == a % 2
  {
  }

  lemma NestedDivision(a: nat, p: nat)
    requires p > 0
    ensures a / 2 / p == a / (2 * p)
  {
    var q, r := a / 2 / p, a / 2 % p;
    assert a / 2 == q * p + r;
    assert a == 2 * (a / 2) + a % 2;
    assert a == q * (2 * p) + (2 * r + a % 2) && 0 <= 2 * r + a % 2 < 2 * p;
    UniqueQuotient(a, 2 * p, q, 2 * r + a % 2);
  }

  lemma BitHalf(a: nat, k: nat)
    requires k > 0
    ensures Bit(a, k) == Bit(a / 2, k - 1)
  {
    NestedDivision(a, Pow2(k - 1));
  }

  /** A logical shift divides by a power of two. */
  lemma {:induction false} ShrDivides(a: nat, k: nat)
    ensures Shr(a, k) == a / Pow2(k)
  {
    if k > 0 {
      ShrDivides(a / 2, k - 1);
      NestedDivision(a, Pow2(k - 1));
    }
  }

  /** Every digit of an exclusive or is the sum of the operands' digits, without carry. */
  lemma {:induction false} XorBit(a: nat, b: nat, k: nat)
    ensures Bit(Xor(a, b), k) == (Bit(a, k) + Bit(b, k)) % 2
  {
    hide Xor, Bit;
    XorDigits(a, b);
    if k == 0 {
      BitZero(a);
      BitZero(b);
      BitZero(Xor(a, b));
      ParityOf(a, b);
      ParityOf(a % 2, b);
    } else {
      XorBit(a / 2, b / 2, k - 1);
      BitHalf(a, k);
      BitHalf(b, k);
      BitHalf(Xor(a, b), k);
    }
  }

  lemma AndUnfold(a: nat, b: nat)
    ensures And(a, b) == if a == 0 || b == 0 then 0 else (a % 2) * (b % 2) + 2 * And(a / 2, b / 2)
    ensures a / 2 == 0 || b / 2 == 0 ==> And(a / 2, b / 2) == 0
  {
  }

  lemma AndDigits(a: nat, b: nat)
    ensures And(a, b) % 2 == (a % 2) * (b % 2) && And(a, b) / 2 == And(a / 2, b / 2)
  {
    AndUnfold(a, b);
    LowDigits(a % 2, b % 2, a, b);
  }

  lemma LowDigits(x: nat, y: nat, a: nat, b: nat)
    requires x == a % 2 && y == b % 2
    requires And(a, b) == if a == 0 || b == 0 then 0 else x * y + 2 * And(a / 2, b / 2)
    requires a / 2 == 0 || b / 2 == 0 ==> And(a / 2, b / 2) == 0
    ensures And(a, b) % 2 == x * y && And(a, b) / 2 == And(a / 2, b / 2)
  {
    hide And;
    BitProduct(x, y);
    if x == 0 || y == 0 {
      assert x * y == 0;
    } else {
      assert x * y == 1;
    }
    TwoDigits(x * y, And(a / 2, b / 2));
  }

  lemma BitProduct(x: nat, y: nat)
    requires x < 2 && y < 2
    ensures x * y < 2 && (x * y == 1 <==> x == 1 && y == 1)
  {
  }

  /** A digit of a conjunction is set exactly when both digits are. */
  lemma {:induction false} AndBit(a: nat, b: nat, k: nat)
    ensures Bit(And(a, b), k) == 1 <==> Bit(a, k) == 1 && Bit(b, k) == 1
  {
    hide And, Bit;
    AndDigits(a, b);
    if k == 0 {
      BitZero(a);
      BitZero(b);
      BitZero(And(a, b));
      BitProduct(a % 2, b % 2);
    } else {
      AndBit(a / 2, b / 2, k - 1);
      BitHalf(a, k);
      BitHalf(b, k);
      BitHalf(And(a, b), k);
    }
  }

  /** The digits determine the number. */
  lemma {:induction false} BitsDetermine(a: nat, b: nat)
    requires forall k: nat :: Bit(a, k) == Bit(b, k)
    ensures a == b
    decreases a + b
  {
    if a + b > 0 {
      forall k: nat
        ensures Bit(a / 2, k) == Bit(b / 2, k)
      {
        BitHalf(a, k + 1);
        BitHalf(b, k + 1);
        assert Bit(a, k + 1) == Bit(b, k + 1);
      }
      BitsDetermine(a / 2, b / 2);
      BitZero(a);
      BitZero(b);
      assert Bit(a, 0) == Bit(b, 0);
    }
  }

  /** Every flag of the mask is set. */
  ghost predicate Covers(flags: nat, mask: nat) {
    forall k: nat :: Bit(mask, k) == 1 ==> Bit(flags, k) == 1
  }

  /** The mask test, digit by digit. */
  lemma MaskCovered(flags: nat, mask: nat)
    ensures And(flags, mask) == mask <==> Covers(flags, mask)
  {
    hide And, Bit;
    forall k: nat
      ensures Bit(And(flags, mask), k) == 1 <==> Bit(flags, k) == 1 && Bit(mask, k) == 1
    {
      AndBit(flags, mask, k);
    }
    if Covers(flags, mask) {
      forall k: nat
        ensures Bit(And(flags, mask), k) == Bit(mask, k)
      {
        assert Bit(And(flags, mask), k) < 2 && Bit(mask, k) < 2;
      }
      BitsDetermine(And(flags, mask), mask);
    }
  }
}
