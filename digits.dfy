/** Decimal digit strings: what JavaScript's `String(n)` / `n.toString()`
    produce for an integer, and `padStart(width, "0")` applied to them. */
module Digits {

  function Pow10(k: nat): (p: nat)
    ensures p >= 1
  {
    if k == 0 then 1 else 10 * Pow10(k - 1)
  }

  predicate IsDigit(c: char) {
    '0' <= c <= '9'
  }

  /** A non-empty string of decimal digits. */
  predicate IsDigits(s: string) {
    |s| > 0 && forall i :: 0 <= i < |s| ==> IsDigit(s[i])
  }

  function DigitValue(c: char): nat {
    if IsDigit(c) then c as int - '0' as int else 0
  }

  function DigitChar(d: nat): (c: char)
    requires d < 10
    ensures IsDigit(c) && DigitValue(c) == d
  {
    ('0' as int + d) as char
  }

  /** The number a digit string denotes, read most significant digit first. */
  function DigitsValue(s: string): nat {
    if s == [] then 0 else DigitsValue(s[..|s| - 1]) * 10 + DigitValue(s[|s| - 1])
  }

  /** `String(n)` for a non-negative integer: the shortest decimal numeral. */
  function NatToString(n: nat): string {
    if n < 10 then [DigitChar(n)] else NatToString(n / 10) + [DigitChar(n % 10)]
  }

  /** The numeral is made of digits and reads back as the number. */
  lemma {:induction false} NatToStringDigits(n: nat)
    ensures IsDigits(NatToString(n)) && DigitsValue(NatToString(n)) == n
  {
    if n >= 10 {
      NatToStringDigits(n / 10);
      var r := NatToString(n);
      assert r[..|r| - 1] == NatToString(n / 10);
    }
  }

  /** The numeral is canonical: it never starts with a superfluous zero. */
  lemma {:induction false} NoLeadingZero(n: nat)
    ensures |NatToString(n)| == 1 || NatToString(n)[0] != '0'
  {
    if n >= 10 {
      NoLeadingZero(n / 10);
      NatToStringDigits(n / 10);
      var r := NatToString(n);
      assert r[0] == NatToString(n / 10)[0];
      if |NatToString(n / 10)| == 1 {
        assert DigitsValue(NatToString(n / 10)) == DigitValue(NatToString(n / 10)[0]);
      }
    }
  }

  /** `String(i)` for any integer: a minus sign in front of the magnitude. */
  function IntToString(i: int): string {
    if i < 0 then "-" + NatToString(-i) else NatToString(i)
  }

  /** A minus sign exactly for negative numbers, then digits that read back
      as the magnitude. */
  lemma IntToStringDigits(i: int)
    ensures var r := IntToString(i);
      |r| > 0 && (r[0] == '-' <==> i < 0)
      && (i >= 0 ==> IsDigits(r) && DigitsValue(r) == i)
      && (i < 0 ==> IsDigits(r[1..]) && DigitsValue(r[1..]) == -i)
  {
    NatToStringDigits(if i < 0 then -i else i);
    if i < 0 {
      var r := IntToString(i);
      assert r[1..] == NatToString(-i);
    }
  }

  function Repeat(c: char, n: nat): (r: string)
    ensures |r| == n
  {
    seq(n, _ => c)
  }

  /** `s.padStart(width, fill)` with a one-character fill: `fill` is put in
      front of `s` until it is `width` long; a longer `s` is left alone. */
  function PadStart(s: string, width: nat, fill: char): string {
    if |s| < width then Repeat(fill, width - |s|) + s else s
  }

  /** Padding reaches the width, never shortens, and keeps the text at the end. */
  lemma PadStartKeepsText(s: string, width: nat, fill: char)
    ensures var r := PadStart(s, width, fill);
      |r| == (if |s| < width then width else |s|) && r[|r| - |s|..] == s
      && forall k :: 0 <= k < |r| - |s| ==> r[k] == fill
  {
  }

  /** A numeral of at most `k` digits is exactly a number below 10^k. */
  lemma {:induction false} NatToStringLength(n: nat, k: nat)
    requires k >= 1
    ensures |NatToString(n)| <= k <==> n < Pow10(k)
  {
    if n >= 10 {
      if k == 1 {
        assert Pow10(1) == 10;
      } else {
        NatToStringLength(n / 10, k - 1);
        assert n / 10 < Pow10(k - 1) <==> n < 10 * Pow10(k - 1);
      }
    } else {
      PowAtLeastTen(k);
    }
  }

  lemma {:induction false} PowAtLeastTen(k: nat)
    requires k >= 1
    ensures Pow10(k) >= 10
  {
    if k > 1 {
      PowAtLeastTen(k - 1);
    }
  }

  /** A year from 1000 to 9999 is written with exactly four digits. */
  lemma FourDigitYear(y: int)
    requires 1000 <= y <= 9999
    ensures |IntToString(y)| == 4
  {
    assert Pow10(3) == 1000 && Pow10(4) == 10000;
    NatToStringLength(y, 4);
    NatToStringLength(y, 3);
  }

  /** Leading zeros do not change the value of a numeral. */
  lemma {:induction false} LeadingZeros(m: nat, s: string)
    ensures DigitsValue(Repeat('0', m) + s) == DigitsValue(s)
    decreases |s|
  {
    var z := Repeat('0', m);
    if s == [] {
      assert z + s == z;
      ZerosValue(m);
    } else {
      var t := z + s;
      assert t[..|t| - 1] == z + s[..|s| - 1];
      assert t[|t| - 1] == s[|s| - 1];
      LeadingZeros(m, s[..|s| - 1]);
    }
  }

  lemma {:induction false} ZerosValue(m: nat)
    ensures DigitsValue(Repeat('0', m)) == 0
  {
    if m > 0 {
      var z := Repeat('0', m);
      assert z[..m - 1] == Repeat('0', m - 1);
      ZerosValue(m - 1);
    }
  }

  lemma DigitsConcat(a: string, b: string)
    requires IsDigits(a) && IsDigits(b)
    ensures IsDigits(a + b)
  {
    assert forall i :: 0 <= i < |a + b| ==> (a + b)[i] == if i < |a| then a[i] else b[i - |a|];
  }

  lemma ZerosAreDigits(m: nat)
    requires m > 0
    ensures IsDigits(Repeat('0', m))
  {
  }

  /** `String(n).padStart(w, "0")` for n < 10^w is exactly w digits that read back as n. */
  lemma PaddedNumeral(n: nat, w: nat)
    requires w >= 1 && n < Pow10(w)
    ensures |PadStart(NatToString(n), w, '0')| == w
    ensures IsDigits(PadStart(NatToString(n), w, '0'))
    ensures DigitsValue(PadStart(NatToString(n), w, '0')) == n
  {
    var s := NatToString(n);
    NatToStringDigits(n);
    NatToStringLength(n, w);
    if |s| < w {
      var z := Repeat('0', w - |s|);
      assert PadStart(s, w, '0') == z + s;
      LeadingZeros(w - |s|, s);
      ZerosAreDigits(w - |s|);
      DigitsConcat(z, s);
    }
  }
}
