/** The three pure helpers of the invoice generator: money, dates and
    invoice numbers rendered as text. Each comes with a parser that reads
    the text back, and a round-trip lemma tying the two together. */
module Formatting {
  import opened Wrappers
  import opened Digits

  // ---------------------------------------------------------------- money

  /** Two-digit, zero-padded numeral, as `String(n).padStart(2, "0")`. */
  function TwoDigits(n: nat): string {
    PadStart(NatToString(n), 2, '0')
  }

  lemma TwoDigitsNumeral(n: nat)
    requires n < 100
    ensures |TwoDigits(n)| == 2 && IsDigits(TwoDigits(n)) && DigitsValue(TwoDigits(n)) == n
  {
    assert Pow10(2) == 100;
    PaddedNumeral(n, 2);
  }

  /** Four-digit, zero-padded numeral, as `String(n).padStart(4, "0")`. */
  function FourDigits(n: nat): string {
    PadStart(NatToString(n), 4, '0')
  }

  lemma FourDigitsNumeral(n: nat)
    requires n < 10000
    ensures |FourDigits(n)| == 4 && IsDigits(FourDigits(n)) && DigitsValue(FourDigits(n)) == n
  {
    assert Pow10(4) == 10000;
    PaddedNumeral(n, 4);
  }

  /** Non-negative cents as dollars with exactly two decimals. */
  function FixedTwo(cents: nat): string {
    NatToString(cents / 100) + "." + TwoDigits(cents % 100)
  }

  /** Whole dollars, a point, then the two-digit cents. */
  lemma FixedTwoShape(cents: nat)
    ensures var r := FixedTwo(cents);
      |r| >= 4 && r[|r| - 3] == '.' && IsDigit(r[0])
      && r[..|r| - 3] == NatToString(cents / 100)
      && r[|r| - 2..] == TwoDigits(cents % 100)
  {
    var w, f := NatToString(cents / 100), TwoDigits(cents % 100);
    NatToStringDigits(cents / 100);
    TwoDigitsNumeral(cents % 100);
    var r := w + "." + f;
    assert r[..|r| - 3] == w;
    assert r[|r| - 2..] == f;
  }

  /** `(cents / 100).toFixed(2)` for whole cents: `toFixed` writes a minus
      sign in front of the rendering of the magnitude. */
  function FormatCurrency(cents: int): string {
    if cents < 0 then "-" + FixedTwo(-cents) else FixedTwo(cents)
  }

  /** A point three from the end, a minus sign exactly for negative amounts,
      and the last two characters the digits of the cents. */
  lemma CurrencyShape(cents: int)
    ensures var r := FormatCurrency(cents);
      |r| >= 4 && r[|r| - 3] == '.'
      && (r[0] == '-' <==> cents < 0)
      && IsDigits(r[|r| - 2..])
      && DigitsValue(r[|r| - 2..]) == (if cents < 0 then -cents else cents) % 100
  {
    var m: nat := if cents < 0 then -cents else cents;
    var f := FixedTwo(m);
    FixedTwoShape(m);
    TwoDigitsNumeral(m % 100);
    if cents < 0 {
      var r := "-" + f;
      assert r[|r| - 2..] == f[|f| - 2..];
    }
  }

  /** Reads `D.CC` back as a number of cents (the reference definition
      against which the two-decimal format is checked). */
  function ParseAmount(s: string): Option<nat> {
    if |s| >= 4 && s[|s| - 3] == '.' && IsDigits(s[..|s| - 3]) && IsDigits(s[|s| - 2..])
    then Some(DigitsValue(s[..|s| - 3]) * 100 + DigitsValue(s[|s| - 2..]))
    else None
  }

  /** Reads an optionally signed `D.CC` back as a number of cents. */
  function ParseCurrency(s: string): Option<int> {
    if |s| > 0 && s[0] == '-' then
      match ParseAmount(s[1..])
      case Some(v) => Some(-(v as int))
      case None => None
    else
      match ParseAmount(s)
      case Some(v) => Some(v)
      case None => None
  }

  lemma FixedTwoRoundTrip(cents: nat)
    ensures ParseAmount(FixedTwo(cents)) == Some(cents)
  {
    FixedTwoShape(cents);
    NatToStringDigits(cents / 100);
    TwoDigitsNumeral(cents % 100);
  }

  /** Formatting loses nothing: every amount of cents, of either sign, is
      read back exactly, so the text always carries exactly two decimals. */
  lemma {:induction false} CurrencyRoundTrip(cents: int)
    ensures ParseCurrency(FormatCurrency(cents)) == Some(cents)
  {
    var m: nat := if cents < 0 then -cents else cents;
    FixedTwoRoundTrip(m);
    var r := FormatCurrency(cents);
    if cents < 0 {
      assert r == "-" + FixedTwo(m);
      assert r[1..] == FixedTwo(m);
    } else {
      assert r == FixedTwo(m);
    }
  }

  /** Small amounts: whole cents still show both decimals. */
  lemma CurrencySmallExamples()
    ensures FormatCurrency(0) == "0.00"
    ensures FormatCurrency(5) == "0.05"
    ensures FormatCurrency(500) == "5.00"
  {
    assert TwoDigits(0) == "00";
    assert TwoDigits(5) == "05";
    assert FixedTwo(500) == "5.00";
  }

  /** 12345 cents are shown as 123.45. */
  lemma CurrencyLargeExample()
    ensures FormatCurrency(12345) == "123.45"
  {
    assert NatToString(12) == NatToString(1) + ['2'] == "12";
    assert NatToString(123) == NatToString(12) + ['3'] == "123";
    assert NatToString(45) == NatToString(4) + ['5'] == "45";
    assert TwoDigits(45) == "45";
    assert 12345 / 100 == 123 && 12345 % 100 == 45;
  }

  // ---------------------------------------------------------------- dates

  /** The three fields of a JavaScript `Date` the generator reads:
      `getFullYear()`, `getMonth()` (0-based) and `getDate()`. */
  datatype Date = Date(year: int, monthIndex: nat, day: nat)

  /** What a valid `Date` guarantees about its month and day fields. */
  predicate ValidDate(d: Date) {
    d.monthIndex < 12 && 1 <= d.day <= 31
  }

  /** Where the pieces of `MM/DD/Y..` sit, whatever the pieces are. */
  lemma DateTextParts(mm: string, dd: string, yy: string)
    requires |mm| == 2 && |dd| == 2
    ensures |mm + "/" + dd + "/" + yy| == 6 + |yy|
    ensures (mm + "/" + dd + "/" + yy)[..2] == mm
    ensures (mm + "/" + dd + "/" + yy)[2] == '/' && (mm + "/" + dd + "/" + yy)[5] == '/'
    ensures (mm + "/" + dd + "/" + yy)[3..5] == dd
    ensures (mm + "/" + dd + "/" + yy)[6..] == yy
  {
  }

  /** `MM/DD/YYYY`: 1-based month and day zero-padded to two digits, then the year. */
  function FormatDate(d: Date): string {
    TwoDigits(d.monthIndex + 1) + "/" + TwoDigits(d.day) + "/" + IntToString(d.year)
  }

  /** Two digits of month, a slash, two digits of day, a slash, the year. */
  lemma DateShape(d: Date)
    requires ValidDate(d)
    ensures var r := FormatDate(d);
      |r| >= 7 && r[2] == '/' && r[5] == '/'
      && IsDigits(r[..2]) && DigitsValue(r[..2]) == d.monthIndex + 1
      && IsDigits(r[3..5]) && DigitsValue(r[3..5]) == d.day
      && r[6..] == IntToString(d.year)
  {
    TwoDigitsNumeral(d.monthIndex + 1);
    TwoDigitsNumeral(d.day);
    IntToStringDigits(d.year);
    DateTextParts(TwoDigits(d.monthIndex + 1), TwoDigits(d.day), IntToString(d.year));
  }

  /** Reads `MM/DD/YYYY` back (non-negative years only). */
  function ParseDate(s: string): Option<Date> {
    if |s| >= 7 && s[2] == '/' && s[5] == '/'
       && IsDigits(s[..2]) && IsDigits(s[3..5]) && IsDigits(s[6..])
       && DigitsValue(s[..2]) >= 1
    then Some(Date(DigitsValue(s[6..]), DigitsValue(s[..2]) - 1, DigitsValue(s[3..5])))
    else None
  }

  /** The date text determines the date: month, day and year are read back. */
  lemma DateRoundTrip(d: Date)
    requires ValidDate(d) && d.year >= 0
    ensures ParseDate(FormatDate(d)) == Some(d)
  {
    DateShape(d);
    IntToStringDigits(d.year);
  }

  /** With a four-digit year the date text is exactly ten characters. */
  lemma DateLength(d: Date)
    requires ValidDate(d) && 1000 <= d.year <= 9999
    ensures |FormatDate(d)| == 10
  {
    FourDigitYear(d.year);
    DateShape(d);
  }

  lemma DateExample()
    ensures FormatDate(Date(2025, 2, 7)) == "03/07/2025"
  {
  }

  // ------------------------------------------------------- invoice numbers

  /** `Math.floor(random * 10000)` for a draw `random` in [0, 1). */
  function RandomSuffix(random: real): (k: nat)
    requires 0.0 <= random < 1.0
    ensures k <= 9999
    ensures k as real <= random * 10000.0 < k as real + 1.0
  {
    (random * 10000.0).Floor
  }

  /** Where the pieces of `INV-<year><MM>-<NNNN>` sit, whatever the pieces are. */
  lemma NumberTextParts(yy: string, mm: string, nn: string)
    requires |mm| == 2 && |nn| == 4
    ensures var s := "INV-" + yy + mm + "-" + nn;
      |s| == 11 + |yy| && s[..4] == "INV-" && s[|s| - 5] == '-'
      && s[4..|s| - 7] == yy && s[|s| - 7..|s| - 5] == mm && s[|s| - 4..] == nn
  {
    var s := "INV-" + yy + mm + "-" + nn;
    assert s[..4] == "INV-";
    assert s[4..|s| - 7] == yy;
  }

  /** `INV-` + year + two-digit month + `-` + four-digit zero-padded suffix;
      the clock reading and the random draw are passed in. */
  function GenerateInvoiceNumber(now: Date, random: real): string
    requires 0.0 <= random < 1.0
  {
    "INV-" + IntToString(now.year) + TwoDigits(now.monthIndex + 1) + "-" + FourDigits(RandomSuffix(random))
  }

  /** The prefix, the year, two digits of month, a dash and four digits of suffix. */
  lemma InvoiceNumberShape(now: Date, random: real)
    requires 0.0 <= random < 1.0 && ValidDate(now)
    ensures var r := GenerateInvoiceNumber(now, random);
      |r| >= 12 && r[..4] == "INV-" && r[|r| - 5] == '-' && r[4..|r| - 7] == IntToString(now.year)
      && IsDigits(r[|r| - 7..|r| - 5]) && DigitsValue(r[|r| - 7..|r| - 5]) == now.monthIndex + 1
      && IsDigits(r[|r| - 4..]) && DigitsValue(r[|r| - 4..]) == RandomSuffix(random)
  {
    TwoDigitsNumeral(now.monthIndex + 1);
    FourDigitsNumeral(RandomSuffix(random));
    IntToStringDigits(now.year);
    NumberTextParts(IntToString(now.year), TwoDigits(now.monthIndex + 1), FourDigits(RandomSuffix(random)));
  }

  /** The parts an invoice number encodes. */
  datatype InvoiceStamp = InvoiceStamp(year: nat, monthIndex: nat, suffix: nat)

  /** Reads `INV-<year><MM>-<NNNN>` back (non-negative years only). */
  function ParseInvoiceNumber(s: string): Option<InvoiceStamp> {
    if |s| >= 12 && s[..4] == "INV-" && s[|s| - 5] == '-'
       && IsDigits(s[4..|s| - 7]) && IsDigits(s[|s| - 7..|s| - 5]) && IsDigits(s[|s| - 4..])
       && DigitsValue(s[|s| - 7..|s| - 5]) >= 1
    then Some(InvoiceStamp(DigitsValue(s[4..|s| - 7]), DigitsValue(s[|s| - 7..|s| - 5]) - 1,
                           DigitsValue(s[|s| - 4..])))
    else None
  }

  /** The number records the year and month of the clock reading and the
      random suffix, and nothing is lost in the text. */
  lemma InvoiceNumberRoundTrip(now: Date, random: real)
    requires 0.0 <= random < 1.0
    requires ValidDate(now) && now.year >= 0
    ensures ParseInvoiceNumber(GenerateInvoiceNumber(now, random))
            == Some(InvoiceStamp(now.year, now.monthIndex, RandomSuffix(random)))
  {
    InvoiceNumberShape(now, random);
    IntToStringDigits(now.year);
  }

  /** With a four-digit year the number is `INV-YYYYMM-NNNN`: 15 characters. */
  lemma InvoiceNumberLength(now: Date, random: real)
    requires 0.0 <= random < 1.0
    requires ValidDate(now) && 1000 <= now.year <= 9999
    ensures |GenerateInvoiceNumber(now, random)| == 15
  {
    FourDigitYear(now.year);
    InvoiceNumberShape(now, random);
  }
}
