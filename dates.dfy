/** Calendar dates as Ruby's `Date` and ActiveSupport's date extensions use them:
    the successor day, month and year boundaries, the day of the week, and the
    two `strftime` layouts the application prints (`%F` and `%A %d-%m-%Y`). */
module Dates {
  import opened Text

  datatype Date = Date(year: nat, month: nat, day: nat)

  predicate IsLeapYear(y: nat)
  {
    y % 4 == 0 && (y % 100 != 0 || y % 400 == 0)
  }

  function DaysInMonth(y: nat, m: nat): (n: nat)
    requires 1 <= m <= 12
    ensures 28 <= n <= 31
    ensures n == 29 <==> m == 2 && IsLeapYear(y)
  {
    if m == 2 then (if IsLeapYear(y) then 29 else 28)
    else if m == 4 || m == 6 || m == 9 || m == 11 then 30
    else 31
  }

  /** The dates that exist in the (proleptic Gregorian) calendar. */
  predicate Valid(d: Date)
  {
    1 <= d.month <= 12 && 1 <= d.day <= DaysInMonth(d.year, d.month)
  }

  /** Strictly earlier in the calendar. */
  predicate Before(a: Date, b: Date)
  {
    a.year < b.year
    || (a.year == b.year && a.month < b.month)
    || (a.year == b.year && a.month == b.month && a.day < b.day)
  }

  /** `d + 1`: the next calendar day, rolling over month and year ends. */
  function NextDay(d: Date): (r: Date)
    requires Valid(d)
    ensures Valid(r) && Before(d, r)
  {
    if d.day < DaysInMonth(d.year, d.month) then Date(d.year, d.month, d.day + 1)
    else if d.month < 12 then Date(d.year, d.month + 1, 1)
    else Date(d.year + 1, 1, 1)
  }

  /** ActiveSupport `beginning_of_month`. */
  function BeginningOfMonth(d: Date): (r: Date)
    requires Valid(d)
    ensures Valid(r) && r.year == d.year && r.month == d.month && r.day == 1
  {
    d.(day := 1)
  }

  /** ActiveSupport `end_of_year`: the last day of the date's year. */
  function EndOfYear(d: Date): (r: Date)
    ensures Valid(r) && r.year == d.year && r.month == 12 && r.day == 31
  {
    Date(d.year, 12, 31)
  }

  /** ActiveSupport `next_month`: the same day one month later, moved back to the
      last day of that month when it is shorter. */
  function NextMonth(d: Date): (r: Date)
    requires Valid(d)
    ensures Valid(r)
    ensures d.month < 12 ==> r.year == d.year && r.month == d.month + 1
    ensures d.month == 12 ==> r.year == d.year + 1 && r.month == 1
    ensures r.day == if d.day <= DaysInMonth(r.year, r.month) then d.day else DaysInMonth(r.year, r.month)
  {
    var y := if d.month == 12 then d.year + 1 else d.year;
    var m := if d.month == 12 then 1 else d.month + 1;
    Date(y, m, if d.day <= DaysInMonth(y, m) then d.day else DaysInMonth(y, m))
  }

  // ----- Day numbers and weekdays -----

  /** Days from 1 January of year 0 to 1 January of year `y`. */
  function DaysBeforeYear(y: nat): int
  {
    365 * y + (y + 3) / 4 - (y + 99) / 100 + (y + 399) / 400
  }

  /** Days from 1 January to the first of month `m` in year `y`. */
  function DaysBeforeMonth(y: nat, m: nat): nat
    requires 1 <= m <= 12
  {
    if m == 1 then 0 else DaysBeforeMonth(y, m - 1) + DaysInMonth(y, m - 1)
  }

  /** The number of days from 1 January of year 0 to `d`. */
  function DayNumber(d: Date): int
    requires Valid(d)
  {
    DaysBeforeYear(d.year) + DaysBeforeMonth(d.year, d.month) + d.day - 1
  }

  /** Going from `y + 3` to `y + 4` crosses a multiple of 4 exactly when 4 divides `y`;
      likewise for 100 and 400. */
  lemma QuadrennialStep(y: nat)
    ensures (y + 4) / 4 - (y + 3) / 4 == if y % 4 == 0 then 1 else 0
  {
  }

  lemma CentennialStep(y: nat)
    ensures (y + 100) / 100 - (y + 99) / 100 == if y % 100 == 0 then 1 else 0
  {
  }

  lemma QuadricentennialStep(y: nat)
    ensures (y + 400) / 400 - (y + 399) / 400 == if y % 400 == 0 then 1 else 0
  {
  }

  lemma CenturiesAreLeapCandidates(y: nat)
    ensures y % 400 == 0 ==> y % 100 == 0
    ensures y % 100 == 0 ==> y % 4 == 0
  {
    if y % 400 == 0 {
      assert y == 100 * (4 * (y / 400));
    }
    if y % 100 == 0 {
      assert y == 4 * (25 * (y / 100));
    }
  }

  lemma YearLength(y: nat)
    ensures DaysBeforeYear(y + 1) == DaysBeforeYear(y) + if IsLeapYear(y) then 366 else 365
  {
    QuadrennialStep(y);
    CentennialStep(y);
    QuadricentennialStep(y);
    CenturiesAreLeapCandidates(y);
  }

  lemma DaysBeforeDecember(y: nat)
    ensures DaysBeforeMonth(y, 12) + 31 == if IsLeapYear(y) then 366 else 365
  {
    assert DaysBeforeMonth(y, 2) == 31;
    assert DaysBeforeMonth(y, 3) == 31 + DaysInMonth(y, 2);
    assert DaysBeforeMonth(y, 4) == DaysBeforeMonth(y, 3) + 31;
    assert DaysBeforeMonth(y, 5) == DaysBeforeMonth(y, 4) + 30;
    assert DaysBeforeMonth(y, 6) == DaysBeforeMonth(y, 5) + 31;
    assert DaysBeforeMonth(y, 7) == DaysBeforeMonth(y, 6) + 30;
    assert DaysBeforeMonth(y, 8) == DaysBeforeMonth(y, 7) + 31;
    assert DaysBeforeMonth(y, 9) == DaysBeforeMonth(y, 8) + 31;
    assert DaysBeforeMonth(y, 10) == DaysBeforeMonth(y, 9) + 30;
    assert DaysBeforeMonth(y, 11) == DaysBeforeMonth(y, 10) + 31;
    assert DaysBeforeMonth(y, 12) == DaysBeforeMonth(y, 11) + 30;
  }

  /** `d + 1` is exactly one day later. */
  lemma NextDayNumber(d: Date)
    requires Valid(d)
    ensures DayNumber(NextDay(d)) == DayNumber(d) + 1
  {
    if d.day == DaysInMonth(d.year, d.month) && d.month == 12 {
      YearLength(d.year);
      DaysBeforeDecember(d.year);
    }
  }

  /** The day of the week, 0 for Sunday through 6 for Saturday
      (1 January of year 0 is a Saturday in the proleptic Gregorian calendar). */
  function Weekday(d: Date): (w: nat)
    requires Valid(d)
    ensures w < 7
  {
    (DayNumber(d) + 6) % 7
  }

  lemma ModSevenStep(n: int)
    ensures (n + 1) % 7 == (n % 7 + 1) % 7
  {
    var q, r := n / 7, n % 7;
    assert n == 7 * q + r && 0 <= r < 7;
    if r == 6 {
      assert n + 1 == 7 * (q + 1);
    } else {
      assert n + 1 == 7 * q + (r + 1);
    }
  }

  /** The day after a Saturday is a Sunday, and so on round the week. */
  lemma NextDayWeekday(d: Date)
    requires Valid(d)
    ensures Weekday(NextDay(d)) == (Weekday(d) + 1) % 7
  {
    var n := DayNumber(d);
    NextDayNumber(d);
    assert DayNumber(NextDay(d)) + 6 == (n + 6) + 1;
    ModSevenStep(n + 6);
  }

  /** 5 November 2020 was a Thursday, so the day numbering is anchored right. */
  lemma KnownWeekday()
    ensures Weekday(Date(2020, 11, 5)) == 4
    ensures DayName(Weekday(Date(2020, 11, 5))) == "Thursday"
  {
    assert DaysBeforeYear(2020) == 737790;
    assert DaysBeforeMonth(2020, 11) == 305 by {
      DaysBeforeDecember(2020);
      assert DaysBeforeMonth(2020, 12) == DaysBeforeMonth(2020, 11) + 30;
    }
  }

  /** `strftime("%A")`; Ruby's `Date#strftime` prints English day names. */
  function DayName(w: nat): string
    requires w < 7
  {
    ["Sunday", "Monday", "Tuesday", "Wednesday", "Thursday", "Friday", "Saturday"][w]
  }

  // ----- strftime and Date.parse -----

  /** `%Y`: the year, zero-padded to at least four digits. */
  function Year4(y: nat): string
  {
    ZeroPad(NatToString(y), 4)
  }

  /** `%m` and `%d`: two digits, zero-padded. */
  function TwoDigits(n: nat): string
  {
    ZeroPad(NatToString(n), 2)
  }

  /** `strftime("%F")`, that is `YYYY-MM-DD`. */
  function FormatIso(d: Date): string
  {
    Year4(d.year) + "-" + TwoDigits(d.month) + "-" + TwoDigits(d.day)
  }

  /** `strftime("%A %d-%m-%Y")`, the label shown next to each pickup. */
  function FormatLabel(d: Date): string
    requires Valid(d)
  {
    DayName(Weekday(d)) + " " + TwoDigits(d.day) + "-" + TwoDigits(d.month) + "-" + Year4(d.year)
  }

  /** The text has the shape `DDDD-DD-DD` (D a decimal digit) in its first ten
      characters, and no digit follows: `Date.parse` reads the day as the whole
      run of digits after the second `-`. */
  predicate IsoShaped(s: string)
  {
    |s| >= 10 && AllDigits(s[..4]) && s[4] == '-' && AllDigits(s[5..7]) && s[7] == '-' && AllDigits(s[8..10])
    && (|s| == 10 || !IsDigit(s[10]))
  }

  /** `Date.parse` on a timestamp that starts with an ISO 8601 calendar date, such as
      `2020-11-05T00:00:00.000Z`; `None` where `Date.parse` raises. */
  function ParseIsoDate(s: string): (r: Option<Date>)
    ensures r.Some? ==> Valid(r.value)
  {
    if IsoShaped(s) then
      var d := Date(DigitsValue(s[..4]), DigitsValue(s[5..7]), DigitsValue(s[8..10]));
      if Valid(d) then Some(d) else None
    else None
  }

  lemma TwoDigitsShape(n: nat)
    requires n < 100
    ensures |TwoDigits(n)| == 2 && AllDigits(TwoDigits(n)) && DigitsValue(TwoDigits(n)) == n
  {
    NatToStringLength(n, 2);
    NatToStringValue(n);
    ZeroPadValue(NatToString(n), 2);
  }

  lemma Year4Shape(y: nat)
    requires y <= 9999
    ensures |Year4(y)| == 4 && AllDigits(Year4(y)) && DigitsValue(Year4(y)) == y
  {
    NatToStringLength(y, 4);
    NatToStringValue(y);
    ZeroPadValue(NatToString(y), 4);
  }

  /** Whatever not starting with a digit follows the date (a time, a zone),
      printing a date with `%F` and parsing it back gives the same date. */
  lemma ParseFormatIso(d: Date, rest: string)
    requires Valid(d) && d.year <= 9999
    requires rest == [] || !IsDigit(rest[0])
    ensures ParseIsoDate(FormatIso(d) + rest) == Some(d)
  {
    Year4Shape(d.year);
    TwoDigitsShape(d.month);
    TwoDigitsShape(d.day);
    var s := FormatIso(d) + rest;
    assert s[..4] == Year4(d.year);
    assert s[5..7] == TwoDigits(d.month);
    assert s[8..10] == TwoDigits(d.day);
    assert |s| > 10 ==> s[10] == rest[0];
  }

  /** A digit right after the day lengthens the day field, so the ten-character
      date is not read on its own. */
  lemma LongerDayNotRead(d: Date, rest: string)
    requires Valid(d) && d.year <= 9999
    requires rest != [] && IsDigit(rest[0])
    ensures ParseIsoDate(FormatIso(d) + rest) == None
  {
    Year4Shape(d.year);
    TwoDigitsShape(d.month);
    TwoDigitsShape(d.day);
    var s := FormatIso(d) + rest;
    assert s[10] == rest[0];
  }

  /** A parsed date prints back, with `%F`, as exactly the first ten characters of
      the text it was read from. */
  lemma FormatParsedIso(s: string)
    requires ParseIsoDate(s).Some?
    ensures |s| >= 10 && FormatIso(ParseIsoDate(s).value) == s[..10]
  {
    var d := ParseIsoDate(s).value;
    PaddedValueRoundTrip(s[..4]);
    PaddedValueRoundTrip(s[5..7]);
    PaddedValueRoundTrip(s[8..10]);
    assert s[..10] == s[..4] + "-" + s[5..7] + "-" + s[8..10];
  }
}
