/** Calendar dates in the ISO 8601 extended format `YYYY-MM-DD` (section
    4.1.2.2 of ISO 8601:2004), as the date input and `toISOString()` produce
    them, and the day count that JavaScript's `Date` orders them by. */
module IsoDate {
  import opened Options
  import opened JsNumber

  datatype Date = Date(year: int, month: int, day: int)

  /** Gregorian leap-year rule, applied proleptically as `Date` does. */
  predicate IsLeapYear(y: int) {
    y % 4 == 0 && (y % 100 != 0 || y % 400 == 0)
  }

  function YearLength(y: int): int {
    if IsLeapYear(y) then 366 else 365
  }

  function DaysInMonth(y: int, m: int): int
    requires 1 <= m <= 12
  {
    if m == 2 then (if IsLeapYear(y) then 29 else 28)
    else if m == 4 || m == 6 || m == 9 || m == 11 then 30
    else 31
  }

  /** A real calendar day with a four-digit year. */
  predicate Valid(d: Date) {
    0 <= d.year <= 9999 && 1 <= d.month <= 12 && 1 <= d.day <= DaysInMonth(d.year, d.month)
  }

  /** Days in the months of year `y` before month `m`. */
  function DaysBeforeMonth(y: int, m: int): nat
    requires 1 <= m <= 12
  {
    var common :=
      match m
      case 1 => 0 case 2 => 31 case 3 => 59 case 4 => 90
      case 5 => 120 case 6 => 151 case 7 => 181 case 8 => 212
      case 9 => 243 case 10 => 273 case 11 => 304 case _ => 334;
    if m > 2 && IsLeapYear(y) then common + 1 else common
  }

  /** Days from 0000-01-01 to the first day of year `y`. */
  function DaysBeforeYear(y: nat): nat {
    if y == 0 then 0 else DaysBeforeYear(y - 1) + YearLength(y - 1)
  }

  /** The day number of a date, counted from 0000-01-01. It differs from
      `new Date(s).getTime() / 86400000` by a constant, so it orders dates
      exactly as the millisecond difference in the dashboard's comparator. */
  function DayKey(d: Date): int
    requires Valid(d)
  {
    DaysBeforeYear(d.year) + DaysBeforeMonth(d.year, d.month) + d.day - 1
  }

  /** Calendar order: by year, then month, then day. */
  predicate Before(a: Date, b: Date) {
    a.year < b.year
    || (a.year == b.year && a.month < b.month)
    || (a.year == b.year && a.month == b.month && a.day < b.day)
  }

  lemma MonthsFitInYear(y: int, m: int)
    requires 1 <= m <= 12
    ensures DaysBeforeMonth(y, m) + DaysInMonth(y, m) <= YearLength(y)
  {
  }

  lemma MonthsIncrease(y: int, m1: int, m2: int)
    requires 1 <= m1 < m2 <= 12
    ensures DaysBeforeMonth(y, m1) + DaysInMonth(y, m1) <= DaysBeforeMonth(y, m2)
  {
  }

  lemma {:induction false} YearsIncrease(y1: nat, y2: nat)
    requires y1 < y2
    ensures DaysBeforeYear(y1) + YearLength(y1) <= DaysBeforeYear(y2)
  {
    if y1 + 1 < y2 {
      YearsIncrease(y1, y2 - 1);
    }
  }

  lemma KeyIncreases(a: Date, b: Date)
    requires Valid(a) && Valid(b) && Before(a, b)
    ensures DayKey(a) < DayKey(b)
  {
    if a.year < b.year {
      MonthsFitInYear(a.year, a.month);
      YearsIncrease(a.year, b.year);
    } else if a.month < b.month {
      MonthsIncrease(a.year, a.month, b.month);
    }
  }

  /** The day key orders valid dates exactly as the calendar does, and two
      valid dates share a key only when they are the same date. */
  lemma DayKeyOrder(a: Date, b: Date)
    requires Valid(a) && Valid(b)
    ensures DayKey(a) < DayKey(b) <==> Before(a, b)
    ensures DayKey(a) == DayKey(b) <==> a == b
  {
    if Before(a, b) {
      KeyIncreases(a, b);
    } else if Before(b, a) {
      KeyIncreases(b, a);
    }
  }

  // ---------------------------------------------------------------------
  // Text form.

  function Digit(c: char): nat
    requires IsDecimalDigit(c)
  {
    DigitValue(c, 10)
  }

  function Pad2(n: int): (s: string)
    requires 0 <= n < 100
  {
    [DigitChar(n / 10), DigitChar(n % 10)]
  }

  function Pad4(n: int): (s: string)
    requires 0 <= n < 10000
  {
    [DigitChar(n / 1000), DigitChar(n / 100 % 10), DigitChar(n / 10 % 10), DigitChar(n % 10)]
  }

  /** `YYYY-MM-DD`, zero-padded. */
  function Format(d: Date): (s: string)
    requires Valid(d)
  {
    Pad4(d.year) + "-" + Pad2(d.month) + "-" + Pad2(d.day)
  }

  /** Ten characters: four digits, a dash, two digits, a dash, two digits. */
  predicate WellShaped(s: string) {
    && |s| == 10 && s[4] == '-' && s[7] == '-'
    && IsDecimalDigit(s[0]) && IsDecimalDigit(s[1]) && IsDecimalDigit(s[2]) && IsDecimalDigit(s[3])
    && IsDecimalDigit(s[5]) && IsDecimalDigit(s[6]) && IsDecimalDigit(s[8]) && IsDecimalDigit(s[9])
  }

  /** Reads `YYYY-MM-DD`; anything else, or a day the calendar lacks, is None. */
  function Parse(s: string): (r: Option<Date>)
    ensures r.Some? ==> Valid(r.value)
  {
    if !WellShaped(s) then None
    else
      var d := Date(Digit(s[0]) * 1000 + Digit(s[1]) * 100 + Digit(s[2]) * 10 + Digit(s[3]),
                    Digit(s[5]) * 10 + Digit(s[6]),
                    Digit(s[8]) * 10 + Digit(s[9]));
      if Valid(d) then Some(d) else None
  }

  lemma Pad2Digits(n: int)
    requires 0 <= n < 100
    ensures var s := Pad2(n); Digit(s[0]) * 10 + Digit(s[1]) == n
  {
  }

  lemma Pad4Digits(n: int)
    requires 0 <= n < 10000
    ensures var s := Pad4(n); Digit(s[0]) * 1000 + Digit(s[1]) * 100 + Digit(s[2]) * 10 + Digit(s[3]) == n
  {
    assert n == 10 * (n / 10) + n % 10;
    assert n / 10 == 10 * (n / 100) + n / 10 % 10;
    assert n / 100 == 10 * (n / 1000) + n / 100 % 10;
  }

  /** Round trip from a date: the formatted date parses back to itself. */
  lemma ParseFormat(d: Date)
    requires Valid(d)
    ensures Parse(Format(d)) == Some(d)
  {
    var s := Format(d);
    assert s[..4] == Pad4(d.year) && s[5..7] == Pad2(d.month) && s[8..] == Pad2(d.day);
    Pad4Digits(d.year);
    Pad2Digits(d.month);
    Pad2Digits(d.day);
  }

  lemma DigitCharOfDigit(c: char)
    requires IsDecimalDigit(c)
    ensures DigitChar(Digit(c)) == c
  {
  }

  lemma DivDigits(q: int, r: int, k: int)
    requires k == 10 || k == 100 || k == 1000
    requires 0 <= r < k
    ensures (q * k + r) / k == q && (q * k + r) % k == r
  {
    if k == 10 {
      assert q * k + r == q * 10 + r;
    } else if k == 100 {
      assert q * k + r == q * 100 + r;
    } else {
      assert q * k + r == q * 1000 + r;
    }
  }

  lemma Pad2OfDigits(a: nat, b: nat)
    requires a < 10 && b < 10
    ensures Pad2(a * 10 + b) == [DigitChar(a), DigitChar(b)]
  {
    DivDigits(a, b, 10);
  }

  lemma Pad4OfDigits(a: nat, b: nat, c: nat, d: nat)
    requires a < 10 && b < 10 && c < 10 && d < 10
    ensures Pad4(a * 1000 + b * 100 + c * 10 + d) == [DigitChar(a), DigitChar(b), DigitChar(c), DigitChar(d)]
  {
    var n := a * 1000 + b * 100 + c * 10 + d;
    DivDigits(a, b * 100 + c * 10 + d, 1000);
    DivDigits(a * 10 + b, c * 10 + d, 100);
    DivDigits(a * 100 + b * 10 + c, d, 10);
    DivDigits(a * 10 + b, 0, 10);
    assert n / 100 == a * 10 + b;
    DivDigits(a, b, 10);
    assert n / 10 == (a * 10 + b) * 10 + c;
    DivDigits(a * 10 + b, c, 10);
  }

  /** Round trip from text: a string that parses is the formatting of what it
      parses to, so no two strings name the same date. */
  lemma FormatParse(s: string)
    requires Parse(s).Some?
    ensures Format(Parse(s).value) == s
  {
    var d := Parse(s).value;
    Pad4OfDigits(Digit(s[0]), Digit(s[1]), Digit(s[2]), Digit(s[3]));
    Pad2OfDigits(Digit(s[5]), Digit(s[6]));
    Pad2OfDigits(Digit(s[8]), Digit(s[9]));
    DigitCharOfDigit(s[0]); DigitCharOfDigit(s[1]); DigitCharOfDigit(s[2]); DigitCharOfDigit(s[3]);
    DigitCharOfDigit(s[5]); DigitCharOfDigit(s[6]); DigitCharOfDigit(s[8]); DigitCharOfDigit(s[9]);
    var t := Format(d);
    assert t[..4] == s[..4];
    assert t[5..7] == s[5..7];
    assert t[8..] == s[8..];
    assert t == s[..4] + "-" + s[5..7] + "-" + s[8..];
    assert s == s[..4] + "-" + s[5..7] + "-" + s[8..];
  }
}
