/** Fixed-width lowercase hexadecimal: the lossless form of every u64 on the wire and of
    the request identifiers. */
module Hex {
  import opened Words

  predicate IsHexDigit(c: char) {
    '0' <= c <= '9' || 'a' <= c <= 'f'
  }

  function Digit(n: nat): (c: char)
    requires n < 16
    ensures IsHexDigit(c) && DigitValue(c) == n
  {
    if n < 10 then '0' + n as char else 'a' + (n - 10) as char
  }

  function DigitValue(c: char): (n: nat)
    requires IsHexDigit(c)
    ensures n < 16
  {
    if c <= '9' then c as int - '0' as int else c as int - 'a' as int + 10
  }

  lemma DigitOfValue(c: char)
    requires IsHexDigit(c)
    ensures Digit(DigitValue(c)) == c
  {
  }

  predicate AllHex(s: string) {
    forall i :: 0 <= i < |s| ==> IsHexDigit(s[i])
  }

  /** `{:016x}` generalized to any width. */
  function Format(n: nat, width: nat): (s: string)
    ensures |s| == width && AllHex(s)
  {
    if width == 0 then "" else Format(n / 16, width - 1) + [Digit(n % 16)]
  }

  function ParseDigits(s: string): (n: nat)
    requires AllHex(s)
  {
    if s == "" then 0 else 16 * ParseDigits(s[..|s| - 1]) + DigitValue(s[|s| - 1])
  }

  lemma {:induction false} FormatParse(s: string)
    requires AllHex(s)
    ensures Format(ParseDigits(s), |s|) == s
  {
    if s != "" {
      var n := |s| - 1;
      FormatParse(s[..n]);
      DigitOfValue(s[n]);
      assert s == s[..n] + [s[n]];
    }
  }

  lemma {:induction false} ParseFormat(n: nat, width: nat)
    requires n < Pow2(4 * width)
    ensures ParseDigits(Format(n, width)) == n
  {
    if width > 0 {
      assert Pow2(4 * width) == 16 * Pow2(4 * (width - 1)) by {
        assert Pow2(4 * width) == 2 * Pow2(4 * width - 1);
        assert Pow2(4 * width - 1) == 2 * Pow2(4 * width - 2);
        assert Pow2(4 * width - 2) == 2 * Pow2(4 * width - 3);
      }
      ParseFormat(n / 16, width - 1);
      assert Format(n, width)[..width - 1] == Format(n / 16, width - 1);
    }
  }

  lemma {:induction false} ParseBound(s: string)
    requires AllHex(s)
    ensures ParseDigits(s) < Pow2(4 * |s|)
  {
    if s != "" {
      var n := |s| - 1;
      ParseBound(s[..n]);
      assert Pow2(4 * |s|) == 2 * Pow2(4 * |s| - 1);
      assert Pow2(4 * |s| - 1) == 2 * Pow2(4 * |s| - 2);
      assert Pow2(4 * |s| - 2) == 2 * Pow2(4 * |s| - 3);
      assert 4 * |s| - 4 == 4 * n;
    }
  }

  const DIGITS := "0123456789abcdef"

  /** The value left after dropping the lowest `k` hexadecimal digits. */
  function Dropped(n: nat, k: nat): nat {
    if k == 0 then n else Dropped(n / 16, k - 1)
  }

  lemma DigitText(n: nat)
    requires n < 16
    ensures |DIGITS| == 16 && Digit(n) == DIGITS[n]
  {
  }

  /** Position by position, most significant digit first. */
  lemma {:induction false} Positional(n: nat, width: nat, k: nat)
    requires k < width
    ensures |DIGITS| == 16 && Format(n, width)[width - 1 - k] == DIGITS[Dropped(n, k) % 16]
  {
    hide DIGITS;
    DigitText(n % 16);
    if k > 0 {
      Positional(n / 16, width - 1, k - 1);
      assert Format(n, width)[width - 1 - k] == Format(n / 16, width - 1)[width - 1 - k];
    }
  }

  /** The request identifier of a session sequence number. */
  function FormatRequestId(sequence: U64): string {
    Format(sequence, 16)
  }

  predicate GoValidRequestId(id: string) {
    |id| == 16 && AllHex(id)
  }

  predicate AsciiAlnum(c: char) {
    '0' <= c <= '9' || 'a' <= c <= 'z' || 'A' <= c <= 'Z'
  }

  /** `[A-Za-z0-9][A-Za-z0-9._:-]{0,63}`. */
  predicate RustValidRequestId(id: string) {
    && 1 <= |id| <= 64 && AsciiAlnum(id[0])
    && forall i :: 1 <= i < |id| ==> AsciiAlnum(id[i]) || id[i] in ['.', '_', ':', '-']
  }

  /** Both peers accept every identifier the session issues, and no two sequence numbers
      share one. */
  lemma RequestIds(m: U64, n: U64)
    ensures GoValidRequestId(FormatRequestId(n)) && RustValidRequestId(FormatRequestId(n))
    ensures FormatRequestId(m) == FormatRequestId(n) <==> m == n
  {
    Pow2Of64();
    ParseFormat(m, 16);
    ParseFormat(n, 16);
  }

  /** Canonical wire form of a u64. */
  function PrintU64(n: U64): string {
    "0x" + Format(n, 16)
  }

  /** The strict parser used by both peers. */
  function ParseU64(s: string): Option<U64> {
    if |s| == 18 && s[..2] == "0x" && AllHex(s[2..]) then
      ParseBound(s[2..]);
      Pow2Of64();
      Some(ParseDigits(s[2..]))
    else None
  }

  /** The parser accepts exactly the printed forms and inverts the printer. */
  lemma ParsePrint(n: U64, s: string)
    ensures ParseU64(PrintU64(n)) == Some(n)
    ensures ParseU64(s) == Some(n) <==> s == PrintU64(n)
  {
    Pow2Of64();
    ParseFormat(n, 16);
    assert PrintU64(n)[2..] == Format(n, 16);
    if ParseU64(s) == Some(n) {
      FormatParse(s[2..]);
      assert s == s[..2] + s[2..];
    }
  }

  /** The wire form, character by character. */
  lemma PrintedAt(n: U64, k: nat)
    requires k < 16
    ensures |PrintU64(n)| == 18 && PrintU64(n)[0] == '0' && PrintU64(n)[1] == 'x'
    ensures PrintU64(n)[17 - k] == "0123456789abcdef"[Dropped(n, k) % 16]
  {
    hide Format, Dropped;
    Positional(n, 16, k);
  }
}
