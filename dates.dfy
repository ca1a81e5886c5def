/** Calendar dates as Python's `datetime.date` holds them, with ISO-8601 text form. */
module Dates {
  import opened Wrappers
  import opened Numeric
  import opened Text

  datatype CalendarDay = Ymd(year: int, month: int, day: int)

  predicate IsLeapYear(year: int) {
    year % 4 == 0 && (year % 100 != 0 || year % 400 == 0)
  }

  function DaysInMonth(year: int, month: int): int {
    if month == 2 then (if IsLeapYear(year) then 29 else 28)
    else if month == 4 || month == 6 || month == 9 || month == 11 then 30
    else 31
  }

  /** The range `datetime.date` accepts: years 1..9999 and real calendar days. */
  predicate ValidDate(d: CalendarDay) {
    1 <= d.year <= 9999 && 1 <= d.month <= 12 && 1 <= d.day <= DaysInMonth(d.year, d.month)
  }

  type Date = d: CalendarDay | ValidDate(d) witness Ymd(1970, 1, 1)

  /** Chronological order, `a <= b` on Python dates. */
  predicate OnOrBefore(a: Date, b: Date) {
    a.year < b.year || (a.year == b.year && (a.month < b.month || (a.month == b.month && a.day <= b.day)))
  }

  lemma OnOrBeforeTotal(a: Date, b: Date)
    ensures OnOrBefore(a, b) || OnOrBefore(b, a)
    ensures OnOrBefore(a, b) && OnOrBefore(b, a) ==> a == b
  {
  }

  lemma OnOrBeforeTransitive(a: Date, b: Date, c: Date)
    requires OnOrBefore(a, b) && OnOrBefore(b, c)
    ensures OnOrBefore(a, c)
  {
  }

  /** `date.isoformat()`: `YYYY-MM-DD`. */
  function IsoFormat(d: Date): (s: string)
    ensures |s| == 10
  {
    PadDecimal(d.year, 4) + "-" + PadDecimal(d.month, 2) + "-" + PadDecimal(d.day, 2)
  }

  /** The ISO text is four digits, '-', two digits, '-', two digits. */
  lemma IsoFormatShape(d: Date)
    ensures var s := IsoFormat(d);
      && s[4] == '-' && s[7] == '-'
      && AllDigits(s[..4]) && AllDigits(s[5..7]) && AllDigits(s[8..])
  {
    var s := IsoFormat(d);
    assert s[..4] == PadDecimal(d.year, 4);
    assert s[5..7] == PadDecimal(d.month, 2);
    assert s[8..] == PadDecimal(d.day, 2);
  }

  /**
   * `date.fromisoformat(s)` for the `YYYY-MM-DD` form: `None` where Python
   * raises `ValueError` (wrong shape or a day that does not exist).
   */
  function ParseIso(s: string): (r: Option<Date>)
    ensures r.Some? ==> IsoFormat(r.value) == s
  {
    if |s| == 10 && s[4] == '-' && s[7] == '-'
       && AllDigits(s[..4]) && AllDigits(s[5..7]) && AllDigits(s[8..])
    then
      var d := Ymd(ParseDecimal(s[..4]), ParseDecimal(s[5..7]), ParseDecimal(s[8..]));
      if ValidDate(d) then
        FormatParsed(s);
        Some(d)
      else None
    else None
  }

  lemma {:induction false} PadParseDecimal(s: string)
    requires AllDigits(s)
    ensures PadDecimal(ParseDecimal(s), |s|) == s
  {
    if s != [] {
      var n := ParseDecimal(s);
      var init := s[..|s| - 1];
      PadParseDecimal(init);
      assert n / 10 == ParseDecimal(init);
      assert n % 10 == DigitValue(s[|s| - 1]);
      assert s == init + [s[|s| - 1]];
    }
  }

  lemma FormatParsed(s: string)
    requires |s| == 10 && s[4] == '-' && s[7] == '-'
    requires AllDigits(s[..4]) && AllDigits(s[5..7]) && AllDigits(s[8..])
    requires ValidDate(Ymd(ParseDecimal(s[..4]), ParseDecimal(s[5..7]), ParseDecimal(s[8..])))
    ensures IsoFormat(Ymd(ParseDecimal(s[..4]), ParseDecimal(s[5..7]), ParseDecimal(s[8..]))) == s
  {
    PadParseDecimal(s[..4]);
    PadParseDecimal(s[5..7]);
    PadParseDecimal(s[8..]);
    assert s == s[..4] + "-" + s[5..7] + "-" + s[8..];
  }

  /** Parsing the ISO form of a date gives the date back. */
  lemma ParseIsoFormat(d: Date)
    ensures ParseIso(IsoFormat(d)) == Some(d)
  {
    var s := IsoFormat(d);
    assert Pow10(4) == 10000 && Pow10(2) == 100;
    assert s[..4] == PadDecimal(d.year, 4);
    assert s[5..7] == PadDecimal(d.month, 2);
    assert s[8..] == PadDecimal(d.day, 2);
    ParsePadDecimal(d.year, 4);
    ParsePadDecimal(d.month, 2);
    ParsePadDecimal(d.day, 2);
  }
}
