/** The date window of the collections query: from the first day of the current
    month to the last day of the year, or of the next year when today is in
    December. */
module Window {
  import opened Text
  import opened Dates

  datatype DateWindow = DateWindow(from: Date, until: Date)

  /** The two assignments to `@fromdate` and `@untildate`, before formatting: the
      month test compares the `%m` text with "12", the December branch takes the
      end of the year of `next_month`. */
  function WindowFor(today: Date): DateWindow
    requires Valid(today)
  {
    var from := BeginningOfMonth(today);
    var until := if TwoDigits(today.month) == "12" then EndOfYear(NextMonth(today)) else EndOfYear(today);
    DateWindow(from, until)
  }

  /** The `%m` text of a month is "12" exactly in December. */
  lemma MonthTextIsTwelve(m: nat)
    requires 1 <= m <= 12
    ensures TwoDigits(m) == "12" <==> m == 12
  {
    TwoDigitsShape(m);
    assert DigitsValue("12") == 12;
  }

  /** `from` is the first of today's month; `until` is 31 December of today's year,
      or of the next year in December; so the window is never empty. */
  lemma WindowBounds(today: Date)
    requires Valid(today)
    ensures WindowFor(today).from == Date(today.year, today.month, 1)
    ensures WindowFor(today).until == Date(if today.month == 12 then today.year + 1 else today.year, 12, 31)
    ensures Valid(WindowFor(today).from) && Valid(WindowFor(today).until)
    ensures Before(WindowFor(today).from, WindowFor(today).until)
  {
    MonthTextIsTwelve(today.month);
  }

  /** Up to the year 9998, both dates of the window, printed with `%F`, read back
      as themselves. */
  lemma WindowTextsReadBack(today: Date)
    requires Valid(today) && today.year < 9999
    ensures ParseIsoDate(FormatIso(WindowFor(today).from)) == Some(WindowFor(today).from)
    ensures ParseIsoDate(FormatIso(WindowFor(today).until)) == Some(WindowFor(today).until)
  {
    var w := WindowFor(today);
    WindowBounds(today);
    ParseFormatIso(w.from, "");
    ParseFormatIso(w.until, "");
    assert FormatIso(w.from) + "" == FormatIso(w.from);
    assert FormatIso(w.until) + "" == FormatIso(w.until);
  }

  /** 5 December 2024 queries 2024-12-01 through 2025-12-31. */
  lemma DecemberExample()
    ensures WindowFor(Date(2024, 12, 5)) == DateWindow(Date(2024, 12, 1), Date(2025, 12, 31))
    ensures FormatIso(Date(2024, 12, 1)) == "2024-12-01"
    ensures FormatIso(Date(2025, 12, 31)) == "2025-12-31"
  {
    WindowBounds(Date(2024, 12, 5));
    assert NatToString(2) == "2";
    assert NatToString(20) == "20";
    assert NatToString(202) == "202";
    assert NatToString(2024) == "2024";
    assert NatToString(2025) == "2025";
    assert NatToString(1) == "1";
    assert NatToString(12) == "12";
    assert NatToString(3) == "3";
    assert NatToString(31) == "31";
  }
}
