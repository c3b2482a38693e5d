/**
 * Calendar dates as Python's `datetime.date` holds them, the month arithmetic
 * of `dateutil.relativedelta(months=+1)`, `datetime.timedelta(days=1)` and
 * the ISO 8601 text that `str(date)` produces.
 */
module Dates {

  datatype Date = Date(year: int, month: int, day: int)

  predicate IsLeapYear(year: int)
  {
    year % 4 == 0 && (year % 100 != 0 || year % 400 == 0)
  }

  function DaysInMonth(year: int, month: int): (n: int)
    requires 1 <= month <= 12
    ensures 28 <= n <= 31
  {
    if month == 2 then (if IsLeapYear(year) then 29 else 28)
    else if month == 4 || month == 6 || month == 9 || month == 11 then 30
    else 31
  }

  /** The dates `datetime.date` accepts: years 1 to 9999, real months and days. */
  predicate ValidDate(d: Date)
  {
    1 <= d.year <= 9999 && 1 <= d.month <= 12 && 1 <= d.day <= DaysInMonth(d.year, d.month)
  }

  type CalendarDate = d: Date | ValidDate(d) witness Date(1970, 1, 1)

  /** `a < b` on dates. */
  predicate Before(a: Date, b: Date)
  {
    a.year < b.year
    || (a.year == b.year && a.month < b.month)
    || (a.year == b.year && a.month == b.month && a.day < b.day)
  }

  /** Adding a month to a date in December of year 9999 overflows `datetime.date`. */
  predicate HasNextMonth(d: Date)
  {
    d.year < 9999 || d.month < 12
  }

  /**
   * `d + relativedelta(months=+1)`: the same day of the next month, clamped to
   * that month's last day.
   */
  function AddOneMonth(d: CalendarDate): (r: CalendarDate)
    requires HasNextMonth(d)
    ensures r.month == (if d.month == 12 then 1 else d.month + 1)
    ensures r.year == (if d.month == 12 then d.year + 1 else d.year)
    ensures r.day == (if d.day <= DaysInMonth(r.year, r.month) then d.day else DaysInMonth(r.year, r.month))
  {
    var year := if d.month == 12 then d.year + 1 else d.year;
    var month := if d.month == 12 then 1 else d.month + 1;
    var last := DaysInMonth(year, month);
    Date(year, month, if d.day <= last then d.day else last)
  }

  /** `d - timedelta(days=1)`. */
  function PreviousDay(d: CalendarDate): (r: CalendarDate)
    requires d != Date(1, 1, 1)
    ensures Before(r, d)
    // the day immediately before: no valid date lies strictly between
    ensures forall x: CalendarDate :: !(Before(r, x) && Before(x, d))
  {
    if d.day > 1 then Date(d.year, d.month, d.day - 1)
    else if d.month > 1 then Date(d.year, d.month - 1, DaysInMonth(d.year, d.month - 1))
    else Date(d.year - 1, 12, 31)
  }

  /**
   * The date a balance assertion's statement must carry:
   * `d + relativedelta(months=+1) - timedelta(days=1)`.
   */
  function StatementDate(d: CalendarDate): CalendarDate
    requires HasNextMonth(d)
  {
    PreviousDay(AddOneMonth(d))
  }

  /** A balance asserted on the first of a month is backed by the statement dated that month's last day. */
  lemma StatementDateOfFirstDay(d: CalendarDate)
    requires HasNextMonth(d) && d.day == 1
    ensures StatementDate(d) == Date(d.year, d.month, DaysInMonth(d.year, d.month))
  {
  }

  /** The statement date always lies strictly after the assertion date. */
  lemma StatementDateIsLater(d: CalendarDate)
    requires HasNextMonth(d)
    ensures Before(d, StatementDate(d))
  {
    var next := AddOneMonth(d);
    if next.day == 1 {
      assert d.day == 1;
      assert StatementDate(d) == Date(d.year, d.month, DaysInMonth(d.year, d.month));
    } else {
      assert StatementDate(d) == Date(next.year, next.month, next.day - 1);
    }
  }

  function Pow10(n: nat): (p: nat)
    ensures p >= 1
  {
    if n == 0 then 1 else 10 * Pow10(n - 1)
  }

  function DigitChar(n: int): char
    requires 0 <= n <= 9
  {
    ('0' as int + n) as char
  }

  /** `'%0*d' % (width, n)`: `n` in decimal, padded with zeros to `width` digits. */
  function Digits(n: nat, width: nat): (s: string)
    requires n < Pow10(width)
    ensures |s| == width
    ensures forall i :: 0 <= i < |s| ==> '0' <= s[i] <= '9'
  {
    if width == 0 then "" else Digits(n / 10, width - 1) + [DigitChar(n % 10)]
  }

  /** The number a string of decimal digits denotes. */
  function DigitsValue(s: string): nat
    requires forall i :: 0 <= i < |s| ==> '0' <= s[i] <= '9'
  {
    if |s| == 0 then 0 else 10 * DigitsValue(s[..|s| - 1]) + (s[|s| - 1] as int - '0' as int)
  }

  /** Reading back a padded decimal gives the number. */
  lemma {:induction false} DigitsRoundTrip(n: nat, width: nat)
    requires n < Pow10(width)
    ensures DigitsValue(Digits(n, width)) == n
  {
    if width > 0 {
      DigitsRoundTrip(n / 10, width - 1);
      var s := Digits(n, width);
      assert s == Digits(n / 10, width - 1) + [DigitChar(n % 10)];
      assert s[..|s| - 1] == Digits(n / 10, width - 1);
      assert s[|s| - 1] as int - '0' as int == n % 10;
      assert DigitsValue(s) == 10 * (n / 10) + n % 10;
    }
  }

  /** `str(d)`: the ISO 8601 calendar date YYYY-MM-DD. */
  function IsoFormat(d: CalendarDate): (s: string)
    ensures |s| == 10 && s[4] == '-' && s[7] == '-'
  {
    Digits(d.year, 4) + "-" + Digits(d.month, 2) + "-" + Digits(d.day, 2)
  }

  /** Where the year, month and day stand in the text. */
  lemma IsoFormatFields(d: CalendarDate)
    ensures IsoFormat(d)[..4] == Digits(d.year, 4)
    ensures IsoFormat(d)[5..7] == Digits(d.month, 2)
    ensures IsoFormat(d)[8..] == Digits(d.day, 2)
  {
  }

  /** Distinct dates print differently: the year, month and day can be read back from the text. */
  lemma IsoFormatInjective(a: CalendarDate, b: CalendarDate)
    requires IsoFormat(a) == IsoFormat(b)
    ensures a == b
  {
    IsoFormatFields(a);
    IsoFormatFields(b);
    DigitsRoundTrip(a.year, 4);
    DigitsRoundTrip(b.year, 4);
    DigitsRoundTrip(a.month, 2);
    DigitsRoundTrip(b.month, 2);
    DigitsRoundTrip(a.day, 2);
    DigitsRoundTrip(b.day, 2);
  }
}
