/**
 * Calendar dates and instants. The application hands text such as
 * `2024-03-05` or `2024-03-05T14:30` to `new Date(...)`; the model reads the
 * two ISO 8601 shapes it builds and yields an instant in milliseconds, or
 * None for an Invalid Date. The zone is a parameter of `ParseInstantIn`;
 * the rest of the model reads at UTC.
 */
module Dates {
  import opened Wrappers
  import opened Text

  const MinuteMs: int := 60000
  const DayMs: int := 86400000

  /** The instant `minute` minutes into day number `day`. */
  function InstantOf(day: int, minute: int): (t: int)
    ensures 0 <= minute < 24 * 60 ==> day * DayMs <= t < (day + 1) * DayMs
  {
    day * DayMs + minute * MinuteMs
  }

  predicate IsLeap(y: nat) {
    y % 4 == 0 && (y % 100 != 0 || y % 400 == 0)
  }

  function YearLength(y: nat): nat {
    if IsLeap(y) then 366 else 365
  }

  function DaysInMonth(y: nat, m: nat): nat {
    if m == 2 then (if IsLeap(y) then 29 else 28)
    else if m == 4 || m == 6 || m == 9 || m == 11 then 30
    else 31
  }

  /** Days from 0000-01-01 to the first day of year y (proleptic Gregorian). */
  function DaysBeforeYear(y: nat): nat {
    if y == 0 then 0 else DaysBeforeYear(y - 1) + YearLength(y - 1)
  }

  /** Days from the first of January to the first of month m of year y. */
  function DaysBeforeMonth(y: nat, m: nat): nat
    requires 1 <= m <= 12
    decreases m
  {
    if m == 1 then 0 else DaysBeforeMonth(y, m - 1) + DaysInMonth(y, m - 1)
  }

  predicate ValidCivil(y: nat, m: nat, d: nat) {
    1 <= m <= 12 && 1 <= d <= DaysInMonth(y, m)
  }

  /**
   * Day number of a civil date, counted from 0000-01-01. JavaScript counts
   * from 1970-01-01; the difference is one constant shift, which no
   * comparison or difference of instants depends on.
   */
  function DayNumber(y: nat, m: nat, d: nat): int
    requires ValidCivil(y, m, d)
  {
    DaysBeforeYear(y) + DaysBeforeMonth(y, m) + d - 1
  }

  /** The civil date that follows a valid one. */
  function NextDay(y: nat, m: nat, d: nat): (r: (nat, nat, nat))
    requires ValidCivil(y, m, d)
    ensures ValidCivil(r.0, r.1, r.2)
  {
    if d < DaysInMonth(y, m) then (y, m, d + 1)
    else if m < 12 then (y, m + 1, 1)
    else (y + 1, 1, 1)
  }

  lemma DaysBeforeDecember(y: nat)
    ensures DaysBeforeMonth(y, 12) + 31 == YearLength(y)
  {
  }

  /** Day numbers are consecutive along the calendar: the next day is one more. */
  lemma DayNumberNext(y: nat, m: nat, d: nat)
    requires ValidCivil(y, m, d)
    ensures var n := NextDay(y, m, d); DayNumber(n.0, n.1, n.2) == DayNumber(y, m, d) + 1
  {
    if d == DaysInMonth(y, m) && m == 12 {
      DaysBeforeDecember(y);
    }
  }

  /** `YYYY-MM-DD`, as a day number. */
  function ParseDate(s: string): (r: Option<int>)
    ensures r.Some? ==> |s| == 10 && s[4] == '-' && s[7] == '-'
  {
    if |s| != 10 || s[4] != '-' || s[7] != '-'
      || !AllDigits(s[0..4]) || !AllDigits(s[5..7]) || !AllDigits(s[8..10])
    then None
    else
      var y, m, d := DecimalValue(s[0..4]), DecimalValue(s[5..7]), DecimalValue(s[8..10]);
      if ValidCivil(y, m, d) then Some(DayNumber(y, m, d)) else None
  }

  /** `HH:MM` with hour 00-23 and minute 00-59, as minutes after midnight. */
  function ParseTime(s: string): (r: Option<nat>)
    ensures r.Some? ==> |s| == 5 && s[2] == ':' && r.value < 24 * 60
  {
    if |s| != 5 || s[2] != ':' || !AllDigits(s[0..2]) || !AllDigits(s[3..5]) then None
    else
      var h, m := DecimalValue(s[0..2]), DecimalValue(s[3..5]);
      if h < 24 && m < 60 then Some(h * 60 + m) else None
  }

  /**
   * `new Date(s).getTime()` for `YYYY-MM-DD` and `YYYY-MM-DDTHH:MM` in a
   * time zone `zone` milliseconds east of UTC; None stands for an Invalid
   * Date (NaN). ECMAScript reads a date alone as UTC midnight and a date
   * with a time as local time, so only the second moves with the zone.
   */
  function ParseInstantIn(s: string, zone: int): (r: Option<int>)
  {
    if |s| == 10 then
      match ParseDate(s)
      case None => None
      case Some(day) => Some(InstantOf(day, 0))
    else if |s| > 11 && s[10] == 'T' then
      match (ParseDate(s[..10]), ParseTime(s[11..]))
      case (Some(day), Some(min)) => Some(InstantOf(day, min) - zone)
      case _ => None
    else None
  }

  /**
   * The reading at UTC, which the rest of the model uses. Away from UTC
   * every date with a time moves by the same amount (`ZoneShift`), which is
   * the same as moving the `now` it is compared with; a date alone does not.
   */
  function ParseInstant(s: string): Option<int> {
    ParseInstantIn(s, 0)
  }

  /** Validity does not depend on the zone; a date with a time lies `zone` before its UTC reading. */
  lemma ZoneShift(s: string, zone: int)
    ensures ParseInstantIn(s, zone).Some? <==> ParseInstant(s).Some?
    ensures ParseInstant(s).Some? ==>
      ParseInstantIn(s, zone).value == (if |s| == 10 then ParseInstant(s).value else ParseInstant(s).value - zone)
  {
  }

  /** A ten-character date and a time joined by 'T' are valid iff both parts are, and add up. */
  lemma ParseJoined(date: string, time: string)
    requires |date| == 10
    ensures ParseInstant(date + "T" + time) ==
      if ParseDate(date).Some? && ParseTime(time).Some?
      then Some(InstantOf(ParseDate(date).value, ParseTime(time).value))
      else None
  {
    var s := date + "T" + time;
    assert s[..10] == date && s[11..] == time;
  }

  lemma MidnightTime()
    ensures ParseTime("00:00") == Some(0)
  {
    var z := "00:00";
    assert z[0..2] == "00" && z[3..5] == "00";
    assert "00"[..1] == "0" && "0"[..0] == "";
  }

  /**
   * A ten-character date alone is UTC midnight, while that date at `00:00`
   * is local midnight: valid together, and the second lies `zone` before
   * the first.
   */
  lemma DateOnlyIsMidnight(date: string, zone: int)
    requires |date| == 10
    ensures ParseInstantIn(date + "T00:00", zone).Some? <==> ParseInstantIn(date, zone).Some?
    ensures ParseInstantIn(date, zone).Some? ==>
      ParseInstantIn(date + "T00:00", zone).value == ParseInstantIn(date, zone).value - zone
  {
    var s := date + "T00:00";
    assert s[..10] == date && s[11..] == "00:00";
    MidnightTime();
  }

  /** Any date followed by 'T' and no time is an Invalid Date. */
  lemma MissingTimeIsInvalid(date: string)
    ensures ParseInstant(date + "T") == None
  {
    var s := date + "T";
    if |s| == 10 {
      assert !IsDigit(s[9]) && s[8..10][1] == s[9];
    } else if |s| > 11 && s[10] == 'T' {
      var t := s[11..];
      assert |t| > 0 && t[|t| - 1] == 'T';
      if |t| == 5 {
        assert !IsDigit(t[4]) && t[3..5][1] == t[4];
      }
    }
  }
}
