/** Calendar dates and times of day as the notification run uses them:
    the lookahead window `today .. today + 2 days`, the `DD/MM/YYYY`
    rendering of appointment dates and the `HH:MM:SS` rendering of the
    notification time. */
module Dates {
  import opened Wrappers

  datatype YearMonthDay = YMD(year: int, month: int, day: int)

  /** The range of years a calendar date can hold. */
  const MinYear := 1
  const MaxYear := 9999

  predicate IsLeapYear(y: int) {
    y % 4 == 0 && (y % 100 != 0 || y % 400 == 0)
  }

  function DaysInMonth(y: int, m: int): (n: int)
    requires 1 <= m <= 12
    ensures 28 <= n <= 31
    ensures m == 2 ==> (n == 29 <==> IsLeapYear(y))
  {
    if m == 2 then (if IsLeapYear(y) then 29 else 28)
    else if m == 4 || m == 6 || m == 9 || m == 11 then 30
    else 31
  }

  predicate IsCalendarDate(d: YearMonthDay) {
    MinYear <= d.year <= MaxYear && 1 <= d.month <= 12 && 1 <= d.day <= DaysInMonth(d.year, d.month)
  }

  /** A real calendar date. */
  type Date = d: YearMonthDay | IsCalendarDate(d) witness YMD(1970, 1, 1)

  /** Chronological order: years first, then months, then days. */
  predicate Before(a: Date, b: Date) {
    a.year < b.year
    || (a.year == b.year && (a.month < b.month || (a.month == b.month && a.day < b.day)))
  }

  predicate NotAfter(a: Date, b: Date) {
    !Before(b, a)
  }

  /** The day after `d`; None past the last representable date, where adding
      a day overflows. */
  function NextDay(d: Date): (r: Option<Date>)
    ensures r.None? <==> d == YMD(MaxYear, 12, 31)
    ensures r.Some? ==> Before(d, r.value)
  {
    if d.day < DaysInMonth(d.year, d.month) then Some(YMD(d.year, d.month, d.day + 1))
    else if d.month < 12 then Some(YMD(d.year, d.month + 1, 1))
    else if d.year < MaxYear then Some(YMD(d.year + 1, 1, 1))
    else None
  }

  /** No date lies strictly between a date and the day after it. */
  lemma NothingBetween(d: Date, x: Date)
    requires NextDay(d).Some? && Before(d, x)
    ensures NotAfter(NextDay(d).value, x)
  {
  }

  /** `d` plus `n` days; None when the sum leaves the representable range. */
  function AddDays(d: Date, n: nat): (r: Option<Date>)
    ensures r.Some? ==> NotAfter(d, r.value)
    ensures n > 0 && r.Some? ==> Before(d, r.value)
  {
    if n == 0 then Some(d)
    else match AddDays(d, n - 1)
      case None => None
      case Some(e) => NextDay(e)
  }

  /** The window `today .. AddDays(today, 2)` holds exactly three dates:
      today, the day after and the day after that. */
  lemma {:induction false} TwoDayWindow(today: Date, x: Date)
    requires AddDays(today, 2).Some?
    ensures NotAfter(today, x) && NotAfter(x, AddDays(today, 2).value)
            <==> x == today || Some(x) == NextDay(today) || Some(x) == AddDays(today, 2)
  {
    var d1 := NextDay(today).value;
    var d2 := AddDays(today, 2).value;
    assert AddDays(today, 1) == Some(d1);
    assert NextDay(d1) == Some(d2);
    if NotAfter(today, x) && NotAfter(x, d2) && x != today && x != d1 {
      NothingBetween(today, x);
      NothingBetween(d1, x);
      assert x == d2;
    }
  }

  // Decimal digits

  predicate IsDigit(c: char) {
    '0' <= c <= '9'
  }

  function DigitChar(n: int): (c: char)
    requires 0 <= n < 10
    ensures IsDigit(c)
  {
    (n + '0' as int) as char
  }

  function DigitValue(c: char): int {
    c as int - '0' as int
  }

  predicate AllDigits(s: string) {
    forall i :: 0 <= i < |s| ==> IsDigit(s[i])
  }

  /** The number a string of decimal digits denotes. */
  function DecimalValue(s: string): int {
    if |s| == 0 then 0 else 10 * DecimalValue(s[..|s| - 1]) + DigitValue(s[|s| - 1])
  }

  /** `n` zero-filled to two digits, as `%d`, `%m`, `%H`, `%M` and `%S` print it. */
  function TwoDigits(n: int): (s: string)
    requires 0 <= n < 100
    ensures |s| == 2 && AllDigits(s) && DecimalValue(s) == n
  {
    var s := [DigitChar(n / 10), DigitChar(n % 10)];
    assert s[..1] == [DigitChar(n / 10)] && s[..1][..0] == [];
    assert DecimalValue(s[..1]) == n / 10;
    s
  }

  /** `n` zero-filled to four digits, as `%Y` prints a year. */
  function FourDigits(n: int): (s: string)
    requires 0 <= n < 10000
    ensures |s| == 4 && AllDigits(s) && DecimalValue(s) == n
  {
    var hi := TwoDigits(n / 100);
    var lo := TwoDigits(n % 100);
    var s := hi + lo;
    assert s[..3] == hi + [lo[0]] && s[..2] == hi;
    assert (hi + [lo[0]])[..2] == hi;
    s
  }

  /** A date as `strftime("%d/%m/%Y")` renders it. */
  function FormatDMY(d: Date): (s: string)
    ensures |s| == 10 && s[2] == '/' && s[5] == '/'
  {
    TwoDigits(d.day) + "/" + TwoDigits(d.month) + "/" + FourDigits(d.year)
  }

  /** Reads a `DD/MM/YYYY` text back into a date. */
  function ParseDMY(s: string): Option<Date> {
    if |s| == 10 && s[2] == '/' && s[5] == '/'
       && AllDigits(s[0..2]) && AllDigits(s[3..5]) && AllDigits(s[6..10])
    then
      var d := YMD(DecimalValue(s[6..10]), DecimalValue(s[3..5]), DecimalValue(s[0..2]));
      if IsCalendarDate(d) then Some(d) else None
    else None
  }

  lemma FormatDMYRoundTrip(d: Date)
    ensures ParseDMY(FormatDMY(d)) == Some(d)
  {
    var s := FormatDMY(d);
    assert s[0..2] == TwoDigits(d.day);
    assert s[3..5] == TwoDigits(d.month);
    assert s[6..10] == FourDigits(d.year);
  }

  /** Different dates render differently. */
  lemma FormatDMYInjective(a: Date, b: Date)
    ensures FormatDMY(a) == FormatDMY(b) ==> a == b
  {
    FormatDMYRoundTrip(a);
    FormatDMYRoundTrip(b);
  }

  // Instants

  datatype Moment = Moment(date: Date, hour: int, minute: int, second: int)

  /** A point in time to the second: a date and a valid time of day. */
  type Instant = m: Moment | 0 <= m.hour < 24 && 0 <= m.minute < 60 && 0 <= m.second < 60
    witness Moment(YMD(1970, 1, 1), 0, 0, 0)

  /** The time of day as `strftime("%H:%M:%S")` renders it. */
  function ClockText(t: Instant): (s: string)
    ensures |s| == 8 && s[2] == ':' && s[5] == ':'
  {
    TwoDigits(t.hour) + ":" + TwoDigits(t.minute) + ":" + TwoDigits(t.second)
  }

  /** Reads an `HH:MM:SS` text back into hours, minutes and seconds. */
  function ParseClock(s: string): Option<(int, int, int)> {
    if |s| == 8 && s[2] == ':' && s[5] == ':'
       && AllDigits(s[0..2]) && AllDigits(s[3..5]) && AllDigits(s[6..8])
    then Some((DecimalValue(s[0..2]), DecimalValue(s[3..5]), DecimalValue(s[6..8])))
    else None
  }

  lemma ClockTextRoundTrip(t: Instant)
    ensures ParseClock(ClockText(t)) == Some((t.hour, t.minute, t.second))
  {
    var s := ClockText(t);
    assert s[0..2] == TwoDigits(t.hour);
    assert s[3..5] == TwoDigits(t.minute);
    assert s[6..8] == TwoDigits(t.second);
  }
}
