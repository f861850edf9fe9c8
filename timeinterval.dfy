/**
 * The maintenance window `TimeInterval` (lib/timeinterval.py): it starts at
 * the instant the object was created and ends four weeks later, moved
 * forward to the next Tuesday when that falls on a Friday to Monday. Both
 * ends are rendered as `YYYY-MM-DDTHH:MM:SSZ`.
 *
 * An instant is a whole number of seconds since 1970-01-01T00:00:00Z (a
 * Thursday); the clock reading `datetime.now` is the parameter `utcNow`.
 */
module TimeInterval {
  import opened PyStr
  import opened HvException

  const SecondsPerDay: nat := 86400

  // ---------------------------------------------------------------------
  // The proleptic Gregorian calendar from 1970 on
  // ---------------------------------------------------------------------

  predicate IsLeap(y: int) {
    y % 4 == 0 && (y % 100 != 0 || y % 400 == 0)
  }

  function DaysInYear(y: int): nat {
    if IsLeap(y) then 366 else 365
  }

  function DaysInMonth(y: int, m: int): nat
    requires 1 <= m <= 12
  {
    if m == 2 then (if IsLeap(y) then 29 else 28)
    else if m == 4 || m == 6 || m == 9 || m == 11 then 30
    else 31
  }

  /** Days in the months of year `y` before month `m`. */
  function DaysBeforeMonth(y: int, m: int): nat
    requires 1 <= m <= 13
  {
    if m == 1 then 0 else DaysBeforeMonth(y, m - 1) + DaysInMonth(y, m - 1)
  }

  lemma MonthsFillYear(y: int)
    ensures DaysBeforeMonth(y, 13) == DaysInYear(y)
  {
    assert DaysBeforeMonth(y, 1) == 0;
    assert DaysBeforeMonth(y, 2) == DaysBeforeMonth(y, 1) + DaysInMonth(y, 1);
    assert DaysBeforeMonth(y, 3) == DaysBeforeMonth(y, 2) + DaysInMonth(y, 2);
    assert DaysBeforeMonth(y, 4) == DaysBeforeMonth(y, 3) + DaysInMonth(y, 3);
    assert DaysBeforeMonth(y, 5) == DaysBeforeMonth(y, 4) + DaysInMonth(y, 4);
    assert DaysBeforeMonth(y, 6) == DaysBeforeMonth(y, 5) + DaysInMonth(y, 5);
    assert DaysBeforeMonth(y, 7) == DaysBeforeMonth(y, 6) + DaysInMonth(y, 6);
    assert DaysBeforeMonth(y, 8) == DaysBeforeMonth(y, 7) + DaysInMonth(y, 7);
    assert DaysBeforeMonth(y, 9) == DaysBeforeMonth(y, 8) + DaysInMonth(y, 8);
    assert DaysBeforeMonth(y, 10) == DaysBeforeMonth(y, 9) + DaysInMonth(y, 9);
    assert DaysBeforeMonth(y, 11) == DaysBeforeMonth(y, 10) + DaysInMonth(y, 10);
    assert DaysBeforeMonth(y, 12) == DaysBeforeMonth(y, 11) + DaysInMonth(y, 11);
    assert DaysBeforeMonth(y, 13) == DaysBeforeMonth(y, 12) + DaysInMonth(y, 12);
  }

  /** Days from 1970-01-01 to January 1st of year `y`. */
  function DaysBeforeYear(y: int): nat
    requires y >= 1970
  {
    if y == 1970 then 0 else DaysBeforeYear(y - 1) + DaysInYear(y - 1)
  }

  datatype Date = Date(year: int, month: int, day: int)

  predicate ValidDate(d: Date) {
    d.year >= 1970 && 1 <= d.month <= 12 && 1 <= d.day <= DaysInMonth(d.year, d.month)
  }

  /** The number of the day `d`, counting 1970-01-01 as day 0. */
  function DaysFromCivil(d: Date): nat
    requires ValidDate(d)
  {
    DaysBeforeYear(d.year) + DaysBeforeMonth(d.year, d.month) + d.day - 1
  }

  /** The year holding day `days` of the years from `y` on, and the day's
      index within that year. */
  function YearOf(days: nat, y: int): (r: (int, nat))
    decreases days
  {
    if days < DaysInYear(y) then (y, days) else YearOf(days - DaysInYear(y), y + 1)
  }

  /** The month holding day `doy` of the months of year `y` from `m` on,
      and the day of that month. */
  function MonthOf(y: int, doy: nat, m: int): (r: (int, int))
    requires 1 <= m <= 12 && DaysBeforeMonth(y, m) + doy < DaysInYear(y)
    decreases 12 - m
  {
    if doy < DaysInMonth(y, m) then (m, doy + 1)
    else
      MonthsFillYear(y);
      MonthOf(y, doy - DaysInMonth(y, m), m + 1)
  }

  /** The calendar date of day number `days`. */
  function CivilFromDays(days: nat): Date {
    var (y, doy) := YearOf(days, 1970);
    YearOfSpec(days, 1970);
    var (m, d) := MonthOf(y, doy, 1);
    Date(y, m, d)
  }

  lemma {:induction false} YearOfSpec(days: nat, y: int)
    requires y >= 1970
    ensures var r := YearOf(days, y);
      r.0 >= y && r.1 < DaysInYear(r.0) && DaysBeforeYear(r.0) + r.1 == DaysBeforeYear(y) + days
    decreases days
  {
    if days >= DaysInYear(y) {
      YearOfSpec(days - DaysInYear(y), y + 1);
    }
  }

  lemma {:induction false} MonthOfSpec(y: int, doy: nat, m: int)
    requires 1 <= m <= 12 && DaysBeforeMonth(y, m) + doy < DaysInYear(y)
    ensures var r := MonthOf(y, doy, m);
      m <= r.0 <= 12 && 1 <= r.1 <= DaysInMonth(y, r.0)
      && DaysBeforeMonth(y, r.0) + r.1 - 1 == DaysBeforeMonth(y, m) + doy
    decreases 12 - m
  {
    if doy >= DaysInMonth(y, m) {
      MonthsFillYear(y);
      MonthOfSpec(y, doy - DaysInMonth(y, m), m + 1);
    }
  }

  /** Every day number names a valid date, and counting the days up to
      that date gives the number back. */
  lemma CivilRoundTrip(days: nat)
    ensures ValidDate(CivilFromDays(days))
    ensures DaysFromCivil(CivilFromDays(days)) == days
  {
    YearOfSpec(days, 1970);
    var (y, doy) := YearOf(days, 1970);
    MonthOfSpec(y, doy, 1);
  }

  // ---------------------------------------------------------------------
  // Instants
  // ---------------------------------------------------------------------

  /** The date and time of day of an instant. */
  datatype Stamp = Stamp(date: Date, hour: nat, minute: nat, second: nat)

  function StampOf(t: nat): (s: Stamp)
    ensures s.hour < 24 && s.minute < 60 && s.second < 60
  {
    var secs := t % SecondsPerDay;
    Stamp(CivilFromDays(t / SecondsPerDay), secs / 3600, secs % 3600 / 60, secs % 60)
  }

  /** The instant a date and time of day denote. */
  function InstantOf(s: Stamp): nat
    requires ValidDate(s.date)
  {
    DaysFromCivil(s.date) * SecondsPerDay + s.hour * 3600 + s.minute * 60 + s.second
  }

  /** An instant is its date and time of day. */
  lemma StampRoundTrip(t: nat)
    ensures ValidDate(StampOf(t).date) && InstantOf(StampOf(t)) == t
  {
    CivilRoundTrip(t / SecondsPerDay);
  }

  /** What a Python `datetime` can hold: years up to 9999. */
  predicate Representable(t: nat) {
    CivilFromDays(t / SecondsPerDay).year <= 9999
  }

  /** `isoweekday()`: Monday is 1 and Sunday 7; day 0 was a Thursday. */
  function IsoWeekday(t: nat): (w: int)
    ensures 1 <= w <= 7
  {
    (t / SecondsPerDay + 3) % 7 + 1
  }

  // ---------------------------------------------------------------------
  // strftime("%Y-%m-%dT%H:%M:%SZ")
  // ---------------------------------------------------------------------

  function Pow10(w: nat): nat {
    if w == 0 then 1 else 10 * Pow10(w - 1)
  }

  /** `n` in exactly `w` decimal digits, zero-padded on the left. */
  function ZeroPad(n: nat, w: nat): (r: string)
    requires n < Pow10(w)
    ensures |r| == w && forall k :: 0 <= k < |r| ==> IsDigit(r[k])
  {
    if w == 0 then [] else ZeroPad(n / 10, w - 1) + [DigitChar(n % 10)]
  }

  lemma {:induction false} ZeroPadRoundTrip(n: nat, w: nat)
    requires n < Pow10(w)
    ensures DigitsValue(ZeroPad(n, w)) == n
  {
    if w > 0 {
      var r := ZeroPad(n, w);
      ZeroPadRoundTrip(n / 10, w - 1);
      assert r[..|r| - 1] == ZeroPad(n / 10, w - 1);
    }
  }

  /** The timestamp of an instant. */
  function Format(t: nat): (s: string)
    requires Representable(t)
  {
    var st := StampOf(t);
    CivilRoundTrip(t / SecondsPerDay);
    ZeroPad(st.date.year, 4) + ("-" + (ZeroPad(st.date.month, 2) + ("-" + (ZeroPad(st.date.day, 2)
      + ("T" + (ZeroPad(st.hour, 2) + (":" + (ZeroPad(st.minute, 2) + (":" + (ZeroPad(st.second, 2)
      + "Z"))))))))))
  }

  /** The numbers written in a timestamp, read back from their positions. */
  function Fields(s: string): seq<nat>
    requires |s| == 20 && forall k :: 0 <= k < 20 && k !in {4, 7, 10, 13, 16, 19} ==> IsDigit(s[k])
  {
    [DigitsValue(s[0..4]), DigitsValue(s[5..7]), DigitsValue(s[8..10]),
     DigitsValue(s[11..13]), DigitsValue(s[14..16]), DigitsValue(s[17..19])]
  }

  /** Where the pieces of a timestamp sit. */
  lemma Positions(y: string, mo: string, d: string, h: string, mi: string, se: string)
    requires |y| == 4 && |mo| == 2 && |d| == 2 && |h| == 2 && |mi| == 2 && |se| == 2
    ensures var s := y + ("-" + (mo + ("-" + (d + ("T" + (h + (":" + (mi + (":" + (se + "Z"))))))))));
      |s| == 20 && s[4] == '-' && s[7] == '-' && s[10] == 'T' && s[13] == ':' && s[16] == ':' && s[19] == 'Z'
      && s[0..4] == y && s[5..7] == mo && s[8..10] == d && s[11..13] == h && s[14..16] == mi && s[17..19] == se
  {
    var s := y + ("-" + (mo + ("-" + (d + ("T" + (h + (":" + (mi + (":" + (se + "Z"))))))))));
    var s1 := mo + ("-" + (d + ("T" + (h + (":" + (mi + (":" + (se + "Z"))))))));
    var s2 := d + ("T" + (h + (":" + (mi + (":" + (se + "Z"))))));
    var s3 := h + (":" + (mi + (":" + (se + "Z"))));
    var s4 := mi + (":" + (se + "Z"));
    assert s == y + ("-" + s1) && s1 == mo + ("-" + s2) && s2 == d + ("T" + s3);
    assert s3 == h + (":" + s4) && s4 == mi + (":" + (se + "Z"));
    assert s[5..] == s1 && s1[..2] == mo;
    assert s[8..] == s2 && s2[..2] == d;
    assert s[11..] == s3 && s3[..2] == h;
    assert s[14..] == s4 && s4[..2] == mi;
    assert s[17..] == se + "Z";
  }

  /** A timestamp is twenty characters with its separators in place, and
      its numbers are the instant's year, month, day, hour, minute and
      second. */
  lemma FormatLayout(t: nat)
    requires Representable(t)
    ensures var s := Format(t); var st := StampOf(t);
      |s| == 20 && s[4] == '-' && s[7] == '-' && s[10] == 'T' && s[13] == ':' && s[16] == ':' && s[19] == 'Z'
      && (forall k :: 0 <= k < 20 && k !in {4, 7, 10, 13, 16, 19} ==> IsDigit(s[k]))
      && Fields(s) == [st.date.year, st.date.month, st.date.day, st.hour, st.minute, st.second]
  {
    var st := StampOf(t);
    CivilRoundTrip(t / SecondsPerDay);
    var y, mo, d := ZeroPad(st.date.year, 4), ZeroPad(st.date.month, 2), ZeroPad(st.date.day, 2);
    var h, mi, se := ZeroPad(st.hour, 2), ZeroPad(st.minute, 2), ZeroPad(st.second, 2);
    Positions(y, mo, d, h, mi, se);
    var s := Format(t);
    assert forall k :: 0 <= k < 20 && k !in {4, 7, 10, 13, 16, 19} ==> IsDigit(s[k]) by {
      forall k | 0 <= k < 20 && k !in {4, 7, 10, 13, 16, 19}
        ensures IsDigit(s[k])
      {
        if k < 4 { assert s[k] == s[0..4][k]; }
        else if k < 7 { assert s[k] == s[5..7][k - 5]; }
        else if k < 10 { assert s[k] == s[8..10][k - 8]; }
        else if k < 13 { assert s[k] == s[11..13][k - 11]; }
        else if k < 16 { assert s[k] == s[14..16][k - 14]; }
        else { assert s[k] == s[17..19][k - 17]; }
      }
    }
    ZeroPadRoundTrip(st.date.year, 4);
    ZeroPadRoundTrip(st.date.month, 2);
    ZeroPadRoundTrip(st.date.day, 2);
    ZeroPadRoundTrip(st.hour, 2);
    ZeroPadRoundTrip(st.minute, 2);
    ZeroPadRoundTrip(st.second, 2);
  }

  /** Two instants with the same timestamp are the same instant. */
  lemma FormatInjective(t1: nat, t2: nat)
    requires Representable(t1) && Representable(t2)
    ensures Format(t1) == Format(t2) ==> t1 == t2
  {
    if Format(t1) == Format(t2) {
      FormatLayout(t1);
      FormatLayout(t2);
      StampRoundTrip(t1);
      StampRoundTrip(t2);
    }
  }

  // ---------------------------------------------------------------------
  // The window
  // ---------------------------------------------------------------------

  /** A `TimeInterval`: the instant `datetime.now` gave at construction. */
  datatype Interval = Interval(utcNow: nat)

  /** The days `end_str` adds for each ISO weekday of the date four weeks
      ahead: Monday 1, Friday 4, Saturday 3, Sunday 2, otherwise none. */
  function ShiftDays(weekday: int): nat {
    var k := 0;
    var k := if weekday == 1 then k + 1 else k;
    var k := if weekday == 5 then k + 4 else k;
    var k := if weekday == 6 then k + 3 else k;
    var k := if weekday == 7 then k + 2 else k;
    k
  }

  /** `utc_now + timedelta(days=28)`. */
  function FourWeeksAhead(now: nat): nat {
    now + 28 * SecondsPerDay
  }

  /** The end of the window before rendering. */
  function EndInstant(now: nat): nat {
    var naive := FourWeeksAhead(now);
    naive + ShiftDays(IsoWeekday(naive)) * SecondsPerDay
  }

  /** `start_str`. */
  function StartStr(ti: Interval): (s: string)
    requires Representable(ti.utcNow)
  {
    Format(ti.utcNow)
  }

  /** `end_str`: an `OverflowError` when an addition leaves the years a
      `datetime` can hold. */
  function EndStr(ti: Interval): (o: Outcome<string>)
  {
    var naive := FourWeeksAhead(ti.utcNow);
    if !Representable(naive) then Raise(PyError("OverflowError", "date value out of range"))
    else if !Representable(EndInstant(ti.utcNow)) then Raise(PyError("OverflowError", "date value out of range"))
    else Ok(Format(EndInstant(ti.utcNow)))
  }

  /** The shift depends only on the weekday four weeks ahead and lands on
      a Tuesday, Wednesday or Thursday. */
  lemma ShiftLandsMidweek(naive: nat)
    ensures var e := naive + ShiftDays(IsoWeekday(naive)) * SecondsPerDay;
      2 <= IsoWeekday(e) <= 4
    ensures ShiftDays(IsoWeekday(naive)) ==
      match IsoWeekday(naive) case 1 => 1 case 5 => 4 case 6 => 3 case 7 => 2 case _ => 0
  {
    var k := ShiftDays(IsoWeekday(naive));
    assert (naive + k * SecondsPerDay) / SecondsPerDay == naive / SecondsPerDay + k;
  }

  /** The window ends on a Tuesday, Wednesday or Thursday, between 28 and
      32 whole days after it starts, at the same time of day. */
  lemma WindowShape(now: nat)
    ensures 2 <= IsoWeekday(EndInstant(now)) <= 4
    ensures exists days: nat :: 28 <= days <= 32 && EndInstant(now) == now + days * SecondsPerDay
    ensures EndInstant(now) % SecondsPerDay == now % SecondsPerDay
    ensures StampOf(EndInstant(now)).hour == StampOf(now).hour
      && StampOf(EndInstant(now)).minute == StampOf(now).minute
      && StampOf(EndInstant(now)).second == StampOf(now).second
  {
    var naive := FourWeeksAhead(now);
    ShiftLandsMidweek(naive);
    var k := ShiftDays(IsoWeekday(naive));
    assert EndInstant(now) == now + (28 + k) * SecondsPerDay;
  }

  /** The rendered ends: `start_str` is the timestamp of the creation
      instant, and `end_str` that of the window's end, unless the end
      falls after year 9999. */
  lemma IntervalStrings(ti: Interval)
    requires Representable(ti.utcNow)
    ensures |StartStr(ti)| == 20
    ensures EndStr(ti).Ok? <==> Representable(FourWeeksAhead(ti.utcNow)) && Representable(EndInstant(ti.utcNow))
    ensures EndStr(ti).Ok? ==> |EndStr(ti).value| == 20 && EndStr(ti).value[10] == 'T'
  {
    FormatLayout(ti.utcNow);
    if EndStr(ti).Ok? {
      FormatLayout(EndInstant(ti.utcNow));
    }
  }
}
