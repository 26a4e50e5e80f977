/** Calendar dates as (year, month, day) triples, whole-month windows, month
    arithmetic, and the ISO 8601 calendar-date text form YYYY-MM-DD (section
    4.1.2.2 of ISO 8601:2004, extended format) that transactions carry. */
module Dates {
  import opened Common

  datatype Date = Date(year: int, month: int, day: int)

  /** A calendar month; `month` runs 1..12. */
  datatype YearMonth = YearMonth(year: int, month: int)

  /** An inclusive range of dates: `isWithinInterval` with a start at the first
      instant of `start` and an end at the last instant of `end`. */
  datatype Window = Window(start: Date, end: Date)

  predicate IsLeapYear(y: int) {
    (y % 4 == 0 && y % 100 != 0) || y % 400 == 0
  }

  function DaysInMonth(y: int, m: int): (n: int)
    requires 1 <= m <= 12
    ensures 28 <= n <= 31
    ensures n == 29 <==> m == 2 && IsLeapYear(y)
  {
    if m == 2 then (if IsLeapYear(y) then 29 else 28)
    else if m == 4 || m == 6 || m == 9 || m == 11 then 30
    else 31
  }

  predicate ValidMonth(ym: YearMonth) {
    1 <= ym.month <= 12
  }

  /** A real calendar date with a four-digit year (the range the text form covers). */
  predicate ValidDate(d: Date) {
    0 <= d.year <= 9999 && 1 <= d.month <= 12 && 1 <= d.day <= DaysInMonth(d.year, d.month)
  }

  /** Chronological order on dates: lexicographic on (year, month, day). */
  predicate NotAfter(a: Date, b: Date) {
    a.year < b.year || (a.year == b.year && (a.month < b.month || (a.month == b.month && a.day <= b.day)))
  }

  predicate InWindow(d: Date, w: Window) {
    NotAfter(w.start, d) && NotAfter(d, w.end)
  }

  function MonthOf(d: Date): YearMonth {
    YearMonth(d.year, d.month)
  }

  /** Months counted from January of year 0, so that month arithmetic is linear. */
  function MonthIndex(ym: YearMonth): int {
    ym.year * 12 + ym.month - 1
  }

  function FromMonthIndex(i: int): (ym: YearMonth)
    ensures ValidMonth(ym) && MonthIndex(ym) == i
  {
    YearMonth(i / 12, i % 12 + 1)
  }

  lemma MonthIndexInjective(a: YearMonth, b: YearMonth)
    requires ValidMonth(a) && ValidMonth(b)
    ensures MonthIndex(a) == MonthIndex(b) <==> a == b
  {
  }

  /** `k` calendar months after `ym` (before it when `k` is negative). */
  function AddMonths(ym: YearMonth, k: int): (r: YearMonth)
    ensures ValidMonth(r) && MonthIndex(r) == MonthIndex(ym) + k
  {
    FromMonthIndex(MonthIndex(ym) + k)
  }

  function FirstDay(ym: YearMonth): Date {
    Date(ym.year, ym.month, 1)
  }

  function LastDay(ym: YearMonth): Date
    requires ValidMonth(ym)
  {
    Date(ym.year, ym.month, DaysInMonth(ym.year, ym.month))
  }

  /** `startOfMonth` .. `endOfMonth` of a month. */
  function MonthWindow(ym: YearMonth): Window
    requires ValidMonth(ym)
  {
    Window(FirstDay(ym), LastDay(ym))
  }

  /** A valid date lies in the window from the first day of `a` to the last
      day of `b` exactly when its month lies between them. */
  lemma InMonthSpan(d: Date, a: YearMonth, b: YearMonth)
    requires ValidDate(d) && ValidMonth(a) && ValidMonth(b)
    ensures InWindow(d, Window(FirstDay(a), LastDay(b)))
        <==> MonthIndex(a) <= MonthIndex(MonthOf(d)) <= MonthIndex(b)
  {
  }

  /** A valid date lies in a month's window exactly when it is in that month. */
  lemma InMonthWindow(d: Date, ym: YearMonth)
    requires ValidDate(d) && ValidMonth(ym)
    ensures InWindow(d, MonthWindow(ym)) <==> MonthOf(d) == ym
  {
    InMonthSpan(d, ym, ym);
    MonthIndexInjective(MonthOf(d), ym);
  }

  // ---------------------------------------------------------------------
  // Decimal digits

  predicate IsDigit(c: char) {
    '0' <= c <= '9'
  }

  predicate AllDigits(s: string) {
    forall i :: 0 <= i < |s| ==> IsDigit(s[i])
  }

  function DigitChar(n: int): (c: char)
    requires 0 <= n < 10
    ensures IsDigit(c)
  {
    ('0' as int + n) as char
  }

  function DigitValue(c: char): (n: int)
    requires IsDigit(c)
    ensures 0 <= n < 10 && DigitChar(n) == c
  {
    c as int - '0' as int
  }

  function Pow10(k: nat): (p: nat)
    ensures p >= 1
  {
    if k == 0 then 1 else 10 * Pow10(k - 1)
  }

  /** The value of a string of decimal digits, most significant first. */
  function DigitsValue(s: string): (n: nat)
    requires AllDigits(s)
    ensures n < Pow10(|s|)
  {
    if s == [] then 0 else DigitsValue(s[..|s| - 1]) * 10 + DigitValue(s[|s| - 1])
  }

  /** The last `width` decimal digits of `n`, zero-padded on the left. */
  function Pad(n: nat, width: nat): (s: string)
    ensures |s| == width && AllDigits(s)
  {
    if width == 0 then [] else Pad(n / 10, width - 1) + [DigitChar(n % 10)]
  }

  /** `String(n)` for a natural number: its decimal digits without padding. */
  function DecimalString(n: nat): (s: string)
    ensures |s| >= 1 && AllDigits(s)
  {
    if n < 10 then [DigitChar(n)] else DecimalString(n / 10) + [DigitChar(n % 10)]
  }

  /** `String(n).padStart(2, '0')`. */
  function PadStart2(n: nat): (s: string)
    ensures |s| >= 2 && AllDigits(s)
  {
    if n < 10 then "0" + DecimalString(n) else DecimalString(n)
  }

  lemma {:induction false} PadValue(n: nat, width: nat)
    requires n < Pow10(width)
    ensures DigitsValue(Pad(n, width)) == n
  {
    if width > 0 {
      var s := Pad(n, width);
      assert s[..width - 1] == Pad(n / 10, width - 1);
      PadValue(n / 10, width - 1);
    }
  }

  lemma {:induction false} ValuePad(s: string)
    requires AllDigits(s)
    ensures Pad(DigitsValue(s), |s|) == s
  {
    if s != [] {
      var init := s[..|s| - 1];
      var v := DigitsValue(s);
      assert v / 10 == DigitsValue(init);
      assert v % 10 == DigitValue(s[|s| - 1]);
      ValuePad(init);
      assert s == init + [s[|s| - 1]];
    }
  }

  lemma {:induction false} DecimalValue(n: nat)
    ensures DigitsValue(DecimalString(n)) == n
  {
    if n >= 10 {
      var s := DecimalString(n);
      assert s[..|s| - 1] == DecimalString(n / 10);
      DecimalValue(n / 10);
    }
  }

  /** Without padding, a number of exactly `width` digits prints as its
      zero-padded form. */
  lemma {:induction false} DecimalIsPad(n: nat, width: nat)
    requires width >= 1 && Pow10(width - 1) <= n < Pow10(width)
    ensures DecimalString(n) == Pad(n, width)
  {
    if width == 1 {
      assert n < 10;
      assert Pad(n / 10, 0) == [];
    } else {
      DecimalIsPad(n / 10, width - 1);
    }
  }

  lemma PadStart2IsPad(n: nat)
    requires n < 100
    ensures PadStart2(n) == Pad(n, 2)
  {
    if n < 10 {
      assert Pad(n / 10, 1) == Pad(0, 1) == "0";
    } else {
      DecimalIsPad(n, 2);
    }
  }

  /** `String(n)` for any integer: a '-' before the digits when negative. */
  function IntText(n: int): (s: string)
    ensures |s| >= 1
  {
    if n < 0 then "-" + DecimalString(-n) else DecimalString(n)
  }

  lemma IntTextSign(n: int)
    ensures IntText(n)[0] == '-' <==> n < 0
  {
    if n >= 0 {
      assert IsDigit(DecimalString(n)[0]);
    }
  }

  lemma IntTextInjective(a: int, b: int)
    ensures IntText(a) == IntText(b) <==> a == b
  {
    if IntText(a) == IntText(b) {
      IntTextSign(a);
      IntTextSign(b);
      if a < 0 {
        assert IntText(a)[1..] == DecimalString(-a);
        assert IntText(b)[1..] == DecimalString(-b);
        DecimalValue(-a);
        DecimalValue(-b);
      } else {
        DecimalValue(a);
        DecimalValue(b);
      }
    }
  }

  /** How many decimal digits end `s`. */
  function TrailingDigits(s: string): (n: nat)
    ensures n <= |s|
  {
    if s == [] || !IsDigit(s[|s| - 1]) then 0 else 1 + TrailingDigits(s[..|s| - 1])
  }

  lemma {:induction false} TrailingDigitsAfterDash(a: string, b: string)
    requires AllDigits(b)
    ensures TrailingDigits(a + "-" + b) == |b|
  {
    if b != [] {
      var s := a + "-" + b;
      assert s[..|s| - 1] == a + "-" + b[..|b| - 1];
      TrailingDigitsAfterDash(a, b[..|b| - 1]);
    } else {
      assert a + "-" + b == a + "-";
    }
  }

  /** `${getYear(date)}-${getMonth(date)}`: the year, a dash, and the month
      counted from 0. */
  function MonthKey(ym: YearMonth): string
    requires ValidMonth(ym)
  {
    IntText(ym.year) + "-" + DecimalString(ym.month - 1)
  }

  /** Different months have different keys. */
  lemma MonthKeyInjective(a: YearMonth, b: YearMonth)
    requires ValidMonth(a) && ValidMonth(b)
    ensures MonthKey(a) == MonthKey(b) <==> a == b
  {
    if MonthKey(a) == MonthKey(b) {
      var ya, ma := IntText(a.year), DecimalString(a.month - 1);
      var yb, mb := IntText(b.year), DecimalString(b.month - 1);
      var s := MonthKey(a);
      TrailingDigitsAfterDash(ya, ma);
      TrailingDigitsAfterDash(yb, mb);
      assert |ma| == |mb|;
      assert ma == s[|s| - |ma|..] == mb;
      assert ya == s[..|ya|] == yb;
      IntTextInjective(a.year, b.year);
      DecimalValue(a.month - 1);
      DecimalValue(b.month - 1);
    }
  }

  /** The first day of a month is not after the last day of another exactly
      when the first month is not later. */
  lemma MonthStartNotAfter(m: YearMonth, last: YearMonth)
    requires ValidMonth(m) && ValidMonth(last)
    ensures NotAfter(FirstDay(m), LastDay(last)) <==> MonthIndex(m) <= MonthIndex(last)
  {
  }

  // ---------------------------------------------------------------------
  // ISO 8601 calendar dates, extended format YYYY-MM-DD

  function FormatIso(d: Date): (s: string)
    requires ValidDate(d)
    ensures |s| == 10 && s[4] == '-' && s[7] == '-'
  {
    Pad(d.year, 4) + "-" + Pad(d.month, 2) + "-" + Pad(d.day, 2)
  }

  predicate IsoShape(s: string) {
    |s| == 10 && s[4] == '-' && s[7] == '-'
    && AllDigits(s[..4]) && AllDigits(s[5..7]) && AllDigits(s[8..])
  }

  /** `parseISO` restricted to the calendar-date form: the date a string
      denotes, or `None` for an Invalid Date. */
  function ParseIso(s: string): Option<Date> {
    if IsoShape(s) then
      var d := Date(DigitsValue(s[..4]), DigitsValue(s[5..7]), DigitsValue(s[8..]));
      if ValidDate(d) then Some(d) else None
    else None
  }

  lemma ParseFormat(d: Date)
    requires ValidDate(d)
    ensures ParseIso(FormatIso(d)) == Some(d)
  {
    var s := FormatIso(d);
    assert s[..4] == Pad(d.year, 4);
    assert s[5..7] == Pad(d.month, 2);
    assert s[8..] == Pad(d.day, 2);
    PadValue(d.year, 4);
    PadValue(d.month, 2);
    PadValue(d.day, 2);
  }

  lemma FormatParse(s: string)
    requires ParseIso(s).Some?
    ensures FormatIso(ParseIso(s).value) == s
  {
    ValuePad(s[..4]);
    ValuePad(s[5..7]);
    ValuePad(s[8..]);
    assert s == s[..4] + "-" + s[5..7] + "-" + s[8..];
  }

  /** A string parses to a date exactly when it is that date's text form. */
  lemma ParseIsoIff(s: string, d: Date)
    ensures ParseIso(s) == Some(d) <==> ValidDate(d) && s == FormatIso(d)
  {
    if ParseIso(s) == Some(d) {
      FormatParse(s);
    }
    if ValidDate(d) && s == FormatIso(d) {
      ParseFormat(d);
    }
  }

  /** An order key on dates: larger keys are later dates. */
  function DateKey(d: Date): int {
    d.year * 10000 + d.month * 100 + d.day
  }

  lemma DateKeyMonotone(a: Date, b: Date)
    requires ValidDate(a) && ValidDate(b)
    ensures NotAfter(a, b) <==> DateKey(a) <= DateKey(b)
  {
  }
}
