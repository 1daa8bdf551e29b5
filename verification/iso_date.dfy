/** JavaScript `Date` values abstracted to a UTC calendar day plus a time of day, and
    the ISO 8601 calendar-date form `YYYY-MM-DD` (the `full-date` production of
    section 5.6 of RFC 3339) that the client sends and receives. */
module IsoDate {
  import opened Wrappers
  import opened Digits

  /** Proleptic Gregorian leap years, as JavaScript dates use. */
  predicate IsLeapYear(y: int) {
    y % 4 == 0 && (y % 100 != 0 || y % 400 == 0)
  }

  function DaysInMonth(y: int, m: int): (n: int)
    requires 1 <= m <= 12
    ensures 28 <= n <= 31
    ensures n == 29 <==> m == 2 && IsLeapYear(y)
  {
    if m == 2 then (if IsLeapYear(y) then 29 else 28)
    else if m == 4 || m == 6 || m == 9 || m == 11 then 30
    else 31
  }

  datatype Day = Day(year: int, month: int, day: int) {
    /** A real calendar day in the years JavaScript writes with four digits. */
    predicate Valid() {
      0 <= year <= 9999 && 1 <= month <= 12 && 1 <= day <= DaysInMonth(year, month)
    }
  }

  type CalendarDay = d: Day | d.Valid() witness Day(1970, 1, 1)

  /** Milliseconds since UTC midnight. */
  type TimeOfDay = ms: int | 0 <= ms < 86_400_000

  /** A `Date` object: a UTC instant, or the "Invalid Date" whose time value is NaN. */
  datatype JsDate = Instant(day: CalendarDay, time: TimeOfDay) | InvalidDate

  predicate IsFullDateShape(s: string) {
    && |s| == 10 && s[4] == '-' && s[7] == '-'
    && AllDigits(s[..4]) && AllDigits(s[5..7]) && AllDigits(s[8..])
  }

  /** `date.toISOString().split('T')[0]` for a valid date: the zero-padded UTC calendar day. */
  function FullDate(d: CalendarDay): (s: string)
    ensures IsFullDateShape(s)
  {
    var s := FixedWidth(d.year, 4) + "-" + FixedWidth(d.month, 2) + "-" + FixedWidth(d.day, 2);
    assert s[..4] == FixedWidth(d.year, 4);
    assert s[5..7] == FixedWidth(d.month, 2);
    assert s[8..] == FixedWidth(d.day, 2);
    s
  }

  /** The calendar day a `YYYY-MM-DD` string names; `None` when the string has another
      shape or names no real day (month 13, February 30, ...). */
  function ParseFullDate(s: string): (r: Option<CalendarDay>)
    ensures r.Some? ==> IsFullDateShape(s)
  {
    if !IsFullDateShape(s) then None
    else
      var d := Day(DecimalValue(s[..4]), DecimalValue(s[5..7]), DecimalValue(s[8..]));
      if d.Valid() then Some(d) else None
  }

  /** Formatting a day and parsing it back gives the same day. */
  lemma ParseOfFullDate(d: CalendarDay)
    ensures ParseFullDate(FullDate(d)) == Some(d)
  {
    var s := FullDate(d);
    assert s[..4] == FixedWidth(d.year, 4);
    assert s[5..7] == FixedWidth(d.month, 2);
    assert s[8..] == FixedWidth(d.day, 2);
    FixedWidthValue(d.year, 4);
    FixedWidthValue(d.month, 2);
    FixedWidthValue(d.day, 2);
  }

  /** Parsing a valid `YYYY-MM-DD` string and formatting the day gives the same string. */
  lemma FullDateOfParse(s: string)
    requires ParseFullDate(s).Some?
    ensures FullDate(ParseFullDate(s).value) == s
  {
    FixedWidthOfValue(s[..4]);
    FixedWidthOfValue(s[5..7]);
    FixedWidthOfValue(s[8..]);
    assert s == s[..4] + "-" + s[5..7] + "-" + s[8..];
  }

  /** Formatting is injective on days. */
  lemma FullDateInjective(d: CalendarDay, e: CalendarDay)
    requires FullDate(d) == FullDate(e)
    ensures d == e
  {
    ParseOfFullDate(d);
    ParseOfFullDate(e);
  }

  /** `new Date(s)`: a `YYYY-MM-DD` string is read as UTC midnight of that day; any other
      string gives the Invalid Date. */
  function NewDate(s: string): (r: JsDate)
    ensures r.Instant? <==> ParseFullDate(s).Some?
    ensures r.Instant? ==> r.time == 0 && FullDate(r.day) == s
  {
    match ParseFullDate(s)
    case Some(d) =>
      FullDateOfParse(s);
      Instant(d, 0)
    case None => InvalidDate
  }

  /** `date.toISOString().split('T')[0]`: the UTC calendar day of a valid date; the
      Invalid Date makes `toISOString` throw a RangeError. */
  function IsoDateOf(date: JsDate): (r: Result<string>)
    ensures r.Err? <==> date.InvalidDate?
    ensures r.Ok? ==> NewDate(r.value) == Instant(date.day, 0)
  {
    match date
    case Instant(d, _) =>
      ParseOfFullDate(d);
      Ok(FullDate(d))
    case InvalidDate => Err("RangeError: Invalid time value")
  }

  /** A date sent as `YYYY-MM-DD` and read back is the same day at midnight: only the
      time of day is lost. */
  lemma IsoDateOfNewDate(s: string)
    requires ParseFullDate(s).Some?
    ensures IsoDateOf(NewDate(s)) == Ok(s)
  {
  }
}
