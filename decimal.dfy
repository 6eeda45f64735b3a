/** Base-10 rendering and parsing of integers, as done by Go's `fmt` verb `%d`,
    `strconv.FormatUint(n, 10)` and `strconv.ParseUint(s, 10, 64)`. */
module Decimal {
  import opened GoBase

  predicate IsDigit(c: char) {
    '0' <= c <= '9'
  }

  predicate AllDigits(s: string) {
    forall i :: 0 <= i < |s| ==> IsDigit(s[i])
  }

  /** A canonical numeral: digits only, and no leading zero unless it is "0". */
  predicate Canonical(s: string) {
    |s| >= 1 && AllDigits(s) && (s[0] == '0' ==> |s| == 1)
  }

  function DigitValue(c: char): (d: nat)
    requires IsDigit(c)
    ensures d < 10
  {
    c as int - '0' as int
  }

  function DigitChar(d: nat): (c: char)
    requires d < 10
    ensures IsDigit(c) && DigitValue(c) == d
  {
    (d + '0' as int) as char
  }

  /** `strconv.FormatUint(n, 10)`, and `%d` of a non-negative value. */
  function FormatUint(n: nat): (s: string)
    ensures Canonical(s)
    ensures s[0] == '0' <==> n == 0
    decreases n
  {
    if n < 10 then [DigitChar(n)] else FormatUint(n / 10) + [DigitChar(n % 10)]
  }

  /** `%d` of a signed value: a minus sign, then the digits of the magnitude. */
  function FormatInt(i: int): (s: string)
    ensures |s| >= 1 && IsDigit(s[|s| - 1])
    ensures s[0] == '-' <==> i < 0
    ensures i >= 0 ==> s == FormatUint(i)
    ensures i < 0 ==> s[1..] == FormatUint(-i)
    ensures forall k :: 0 <= k < |s| ==> IsDigit(s[k]) || (k == 0 && s[k] == '-')
  {
    if i < 0 then "-" + FormatUint(-i) else FormatUint(i)
  }

  /** A numeral holds digits and at most a minus sign, so no other character. */
  lemma NumeralFree(n: int, c: char)
    requires !IsDigit(c) && c != '-'
    ensures c !in FormatInt(n)
  {
  }

  /** The number a string of digits denotes. */
  function ValueOf(s: string): nat
    requires AllDigits(s)
  {
    if s == [] then 0 else ValueOf(s[..|s| - 1]) * 10 + DigitValue(s[|s| - 1])
  }

  /** `strconv.ParseUint(s, 10, 64)`: fails on the empty string, on any character
      that is not a digit (no sign, no underscore in base 10) and on values that
      do not fit in 64 bits; leading zeros are accepted. */
  function ParseUint(s: string): (r: Option<uint64>)
    ensures r.Some? ==> |s| >= 1 && AllDigits(s)
  {
    if s == [] || !AllDigits(s) then None
    else if ValueOf(s) > MaxUint64 then None
    else Some(ValueOf(s))
  }

  lemma {:induction false} ValueOfFormatUint(n: nat)
    ensures ValueOf(FormatUint(n)) == n
    decreases n
  {
    if n >= 10 {
      var s := FormatUint(n);
      assert s[..|s| - 1] == FormatUint(n / 10);
      ValueOfFormatUint(n / 10);
    }
  }

  /** Rendering a 64-bit value and parsing it back is lossless. */
  lemma ParseFormatUint(n: uint64)
    ensures ParseUint(FormatUint(n)) == Some(n)
  {
    ValueOfFormatUint(n);
  }

  lemma {:induction false} ValueOfZero(s: string)
    requires AllDigits(s) && ValueOf(s) == 0
    ensures forall i :: 0 <= i < |s| ==> s[i] == '0'
  {
    if s != [] {
      var p := s[..|s| - 1];
      ValueOfZero(p);
      forall i | 0 <= i < |s| ensures s[i] == '0' {
        if i < |s| - 1 {
          assert s[i] == p[i];
        }
      }
    }
  }

  /** Rendering is the inverse of parsing on canonical numerals: a parsed
      numeral without leading zeros is rendered back to exactly itself. */
  lemma {:induction false} FormatValueOf(s: string)
    requires Canonical(s)
    ensures FormatUint(ValueOf(s)) == s
    decreases |s|
  {
    if |s| > 1 {
      var p := s[..|s| - 1];
      assert Canonical(p);
      assert ValueOf(p) != 0 by {
        if ValueOf(p) == 0 {
          ValueOfZero(p);
        }
      }
      var n := ValueOf(s);
      assert n / 10 == ValueOf(p) && n % 10 == DigitValue(s[|s| - 1]);
      FormatValueOf(p);
      assert DigitChar(n % 10) == s[|s| - 1];
      assert s == p + [s[|s| - 1]];
    }
  }

  lemma FormatParseUint(s: string)
    requires ParseUint(s).Some? && (s[0] == '0' ==> |s| == 1)
    ensures FormatUint(ParseUint(s).value) == s
  {
    FormatValueOf(s);
  }
}
