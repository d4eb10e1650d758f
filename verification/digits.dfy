/** Digit runs in radix 10 and 16, and `Number.prototype.toString()` for
    non-negative integers. */
module Digits {

  predicate IsDecimalDigit(c: char) { '0' <= c <= '9' }

  predicate IsHexDigit(c: char) {
    IsDecimalDigit(c) || 'a' <= c <= 'f' || 'A' <= c <= 'F'
  }

  /** `c` is a digit of the given radix (10 or 16). */
  predicate IsDigit(c: char, radix: nat) {
    if radix == 16 then IsHexDigit(c) else IsDecimalDigit(c)
  }

  function DigitValue(c: char, radix: nat): (d: nat)
    requires IsDigit(c, radix)
    ensures d < 16 && (radix != 16 ==> d < 10)
    ensures d == 0 <==> c == '0'
  {
    if IsDecimalDigit(c) then c as int - '0' as int
    else if 'a' <= c <= 'f' then c as int - 'a' as int + 10
    else c as int - 'A' as int + 10
  }

  predicate AllDigits(s: string, radix: nat) {
    forall i :: 0 <= i < |s| ==> IsDigit(s[i], radix)
  }

  /** The number a run of digits denotes, most significant digit first. */
  function RunValue(s: string, radix: nat): nat
    requires AllDigits(s, radix)
  {
    if s == [] then 0
    else RunValue(s[..|s| - 1], radix) * radix + DigitValue(s[|s| - 1], radix)
  }

  /** A run of digits denotes zero exactly when every digit is '0'. */
  lemma {:induction false} RunValueZero(s: string, radix: nat)
    requires AllDigits(s, radix) && radix > 0
    ensures RunValue(s, radix) == 0 <==> forall i :: 0 <= i < |s| ==> s[i] == '0'
  {
    if s != [] {
      var p := s[..|s| - 1];
      RunValueZero(p, radix);
      if RunValue(s, radix) == 0 {
        assert RunValue(p, radix) * radix == 0;
        forall i | 0 <= i < |s| ensures s[i] == '0' {
          if i < |p| { assert s[i] == p[i]; }
        }
      } else {
        assert RunValue(p, radix) != 0 || DigitValue(s[|s| - 1], radix) != 0;
        if RunValue(p, radix) != 0 {
          var i :| 0 <= i < |p| && p[i] != '0';
          assert s[i] == p[i];
        }
      }
    }
  }

  function DigitChar(d: nat): (c: char)
    requires d < 10
    ensures IsDecimalDigit(c) && DigitValue(c, 10) == d
  {
    ('0' as int + d) as char
  }

  /** A canonical decimal numeral: non-empty, digits only, no leading zero
      unless it is "0" itself. */
  predicate IsCanonicalDecimal(s: string) {
    0 < |s| && AllDigits(s, 10) && (|s| > 1 ==> s[0] != '0')
  }

  /** `n.toString()` for a non-negative integer `n`. */
  function DecimalString(n: nat): (s: string)
    ensures IsCanonicalDecimal(s)
  {
    if n < 10 then [DigitChar(n)]
    else
      var p := DecimalString(n / 10);
      assert p[0] != '0' by { if |p| == 1 { RunValueZero(p, 10); } }
      p + [DigitChar(n % 10)]
  }

  /** Reading back the numeral of `n` gives `n`. */
  lemma {:induction false} DecimalStringValue(n: nat)
    ensures RunValue(DecimalString(n), 10) == n
  {
    var s := DecimalString(n);
    if n >= 10 {
      DecimalStringValue(n / 10);
      assert s[..|s| - 1] == DecimalString(n / 10);
    }
  }

  /** A canonical numeral with a leading non-zero digit denotes at least one. */
  lemma {:induction false} LeadingDigitPositive(s: string)
    requires 0 < |s| && AllDigits(s, 10) && s[0] != '0'
    ensures RunValue(s, 10) > 0
  {
    RunValueZero(s, 10);
  }

  /** Every canonical numeral is the numeral of the number it denotes, so
      `DecimalString` is a bijection between naturals and canonical numerals. */
  lemma {:induction false} CanonicalDecimalRoundTrip(s: string)
    requires IsCanonicalDecimal(s)
    ensures DecimalString(RunValue(s, 10)) == s
  {
    if |s| > 1 {
      var p := s[..|s| - 1];
      assert p[0] == s[0];
      LeadingDigitPositive(p);
      CanonicalDecimalRoundTrip(p);
      var v := RunValue(s, 10);
      assert v / 10 == RunValue(p, 10) && v % 10 == DigitValue(s[|s| - 1], 10);
      assert DigitChar(v % 10) == s[|s| - 1];
      assert s == p + [s[|s| - 1]];
    }
  }

  function Pow10(k: nat): (p: nat)
    ensures p > 0
  {
    if k == 0 then 1 else 10 * Pow10(k - 1)
  }

  lemma AllDigitsAppend(a: string, b: string, radix: nat)
    requires AllDigits(a, radix) && AllDigits(b, radix)
    ensures AllDigits(a + b, radix)
  {
    forall i | 0 <= i < |a + b| ensures IsDigit((a + b)[i], radix) {
      if i >= |a| { assert (a + b)[i] == b[i - |a|]; }
    }
  }

  lemma ShiftByTen(x: int, p: int, y: int, d: int)
    ensures (x * p + y) * 10 + d == x * (p * 10) + (y * 10 + d)
  {
  }

  /** Appending digits shifts the value of the front by one power of ten
      per digit. */
  lemma {:induction false} RunValueAppend(a: string, b: string)
    requires AllDigits(a, 10) && AllDigits(b, 10)
    ensures AllDigits(a + b, 10)
    ensures RunValue(a + b, 10) == RunValue(a, 10) * Pow10(|b|) + RunValue(b, 10)
  {
    AllDigitsAppend(a, b, 10);
    if b == [] {
      assert a + b == a;
    } else {
      var b' := b[..|b| - 1];
      assert AllDigits(b', 10);
      RunValueAppend(a, b');
      var ab := a + b;
      assert ab[..|ab| - 1] == a + b';
      assert ab[|ab| - 1] == b[|b| - 1];
      var x, p, y, d := RunValue(a, 10), Pow10(|b'|), RunValue(b', 10), DigitValue(b[|b| - 1], 10);
      assert RunValue(ab, 10) == RunValue(a + b', 10) * 10 + d;
      assert RunValue(ab, 10) == (x * p + y) * 10 + d;
      assert RunValue(b, 10) == y * 10 + d;
      assert Pow10(|b|) == p * 10;
      ShiftByTen(x, p, y, d);
    }
  }
}
