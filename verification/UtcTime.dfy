/** Broken-down UTC time (`TimeZone::toUtcTime`, `fromUtcTime` in `muduo/base/TimeZone.cc`). */
module UtcTime {
  import opened Truncation
  import opened Calendar

  const SECONDS_PER_DAY := 86400
  const DAYS_PER_WEEK := 7

  /** `struct tm`: months from 0, years from 1900, weekdays and days of the year from 0. */
  datatype Tm = Tm(sec: int, min: int, hour: int, mday: int, mon: int, year: int,
                   wday: int, yday: int, isDst: bool, gmtOff: int)

  const ZERO_TM := Tm(0, 0, 0, 0, 0, 0, 0, 0, false, 0)

  /** Julian day number of the day that holds second t. */
  function DayOf(t: int): int { t / SECONDS_PER_DAY + JULIAN_DAY_OF_1970_01_01 }

  function DaysBeforeMonth(year: int, month: int): int
    requires 1 <= month <= 12
  {
    if month == 1 then 0 else DaysBeforeMonth(year, month - 1) + DaysOfMonth(year, month - 1)
  }

  function DayOfYear(d: YearMonthDay): int
    requires 1 <= d.month <= 12
  {
    DaysBeforeMonth(d.year, d.month) + d.day - 1
  }

  /** What broken-down UTC means, for every second; 1 January 1970 was a Thursday. */
  function BrokenDown(t: int): Tm {
    var s := t % SECONDS_PER_DAY;
    var d := DateOf(DayOf(t));
    DayNumberOfDate(DayOf(t));
    Tm(s % 60, s / 60 % 60, s / 3600, d.day, d.month - 1, d.year - 1900,
       (t / SECONDS_PER_DAY + 4) % DAYS_PER_WEEK, DayOfYear(d), false, 0)
  }

  function FromUtcTime(year: int, month: int, day: int, hour: int, minute: int, seconds: int): int {
    var secondsInDay := hour * 3600 + minute * 60 + seconds;
    (GetJulianDayNumber(year, month, day) - JULIAN_DAY_OF_1970_01_01) * SECONDS_PER_DAY + secondsInDay
  }

  function FromUtcTm(utc: Tm): int {
    FromUtcTime(utc.year + 1900, utc.mon + 1, utc.mday, utc.hour, utc.min, utc.sec)
  }

  // ---------------------------------------------------------------- the source's procedures

  method FillHMS(seconds: nat, utc0: Tm) returns (utc: Tm)
    ensures utc == utc0.(sec := utc.sec, min := utc.min, hour := utc.hour)
    ensures 0 <= utc.sec < 60 && 0 <= utc.min < 60
    ensures utc.hour * 3600 + utc.min * 60 + utc.sec == seconds
  {
    utc := utc0.(sec := seconds % 60);
    var minutes := seconds / 60;
    utc := utc.(min := minutes % 60);
    utc := utc.(hour := minutes / 60);
  }

  /**
    From the first day on, date and time of day are exact. The weekday is taken with a truncating
    remainder, so it is right exactly on day numbers from -1 and on negative Sundays; the day of
    the year needs its new year in range too.
   */
  method ToUtcTime(t: int, yday: bool) returns (utc: Tm)
    ensures DayOf(t) >= FIRST_DAY ==> utc == BrokenDown(t).(wday := utc.wday, yday := utc.yday)
    ensures utc.wday == BrokenDown(t).wday <==> DayOf(t) >= -1 || (DayOf(t) + 1) % DAYS_PER_WEEK == 0
    ensures DayOf(t) >= FIRST_DAY && yday ==>
              (utc.yday == BrokenDown(t).yday <==> BrokenDown(t).year + 1900 > -4800)
    ensures !yday ==> utc.yday == 0
  {
    hide GetYearMonthDay, DateOf, GetJulianDayNumber, DayOfYear;
    utc := ZERO_TM;
    var seconds := Rem(t, SECONDS_PER_DAY);
    var days := Quot(t, SECONDS_PER_DAY);
    if seconds < 0 {
      seconds := seconds + SECONDS_PER_DAY;
      days := days - 1;
    }
    assert days == t / SECONDS_PER_DAY && seconds == t % SECONDS_PER_DAY;
    utc := FillHMS(seconds, utc);
    var j := days + JULIAN_DAY_OF_1970_01_01;
    var ymd := GetYearMonthDay(j);
    utc := utc.(year := ymd.year - 1900);
    utc := utc.(mon := ymd.month - 1);
    utc := utc.(mday := ymd.day);
    utc := utc.(wday := Rem(j + 1, DAYS_PER_WEEK));
    WeekdayOfDay(j);
    if yday {
      utc := utc.(yday := j - GetJulianDayNumber(ymd.year, 1, 1));
    }
    if j >= FIRST_DAY {
      YearMonthDayIsDateOf(j);
      HmsOfSeconds(seconds, utc.hour, utc.min, utc.sec);
      if yday { DayOfYearExact(j); }
    }
  }

  lemma HmsOfSeconds(s: int, hour: int, min: int, sec: int)
    requires 0 <= sec < 60 && 0 <= min < 60 && hour * 3600 + min * 60 + sec == s
    ensures s % 60 == sec && s / 60 % 60 == min && s / 3600 == hour
  {
    assert s / 60 == hour * 60 + min;
  }

  /** The truncating weekday against the calendar's week. */
  lemma WeekdayOfDay(j: int)
    ensures (j - JULIAN_DAY_OF_1970_01_01 + 4) % DAYS_PER_WEEK == (j + 1) % DAYS_PER_WEEK
    ensures Rem(j + 1, DAYS_PER_WEEK) == (j + 1) % DAYS_PER_WEEK
            <==> j >= -1 || (j + 1) % DAYS_PER_WEEK == 0
  {
    assert j - JULIAN_DAY_OF_1970_01_01 + 4 == j + 1 - DAYS_PER_WEEK * 348655;
  }

  // ---------------------------------------------------------------- day of the year

  lemma DaysBeforeMonthTable(year: int, month: int)
    requires 1 <= month <= 12
    ensures var l := if IsLeapYear(year) then 1 else 0;
            DaysBeforeMonth(year, month) ==
            [0, 31, 59 + l, 90 + l, 120 + l, 151 + l, 181 + l, 212 + l, 243 + l, 273 + l, 304 + l, 334 + l][month - 1]
  {
    if month > 1 { DaysBeforeMonthTable(year, month - 1); }
  }

  /** Counting months and subtracting day numbers agree. */
  lemma DayOfYearByNumber(d: YearMonthDay)
    requires ValidDate(d)
    ensures DayOfYear(d) == DayNumber(d) - DayNumber(YearMonthDay(d.year, 1, 1))
    ensures 0 <= DayOfYear(d) < if IsLeapYear(d.year) then 366 else 365
  {
    hide YearStart, DaysBeforeMonth;
    DaysBeforeMonthTable(d.year, d.month);
    YearLength(d.year + 4799);
    LeapShift(d.year);
  }

  lemma NewYearBeforeFirst()
    ensures GetJulianDayNumber(-4800, 1, 1) == DayNumber(YearMonthDay(-4800, 1, 1)) + 1
  {
  }

  lemma DayOfYearExact(j: int)
    requires j >= FIRST_DAY
    ensures ValidDate(DateOf(j))
    ensures j - GetJulianDayNumber(DateOf(j).year, 1, 1) == DayOfYear(DateOf(j)) <==> DateOf(j).year > -4800
  {
    DayNumberOfDate(j);
    var d := DateOf(j);
    DayOfYearByNumber(d);
    JulianDayNumberIsDayNumber(d);
    if d.year > -4800 {
      JulianDayNumberIsDayNumber(YearMonthDay(d.year, 1, 1));
    } else {
      NewYearBeforeFirst();
    }
  }

  // ---------------------------------------------------------------- fields and inverses

  lemma FieldsInRange(t: int)
    ensures var u := BrokenDown(t);
            && 0 <= u.sec < 60 && 0 <= u.min < 60 && 0 <= u.hour < 24
            && ValidDate(YearMonthDay(u.year + 1900, u.mon + 1, u.mday))
            && 0 <= u.wday < 7
            && 0 <= u.yday < if IsLeapYear(u.year + 1900) then 366 else 365
  {
    hide DateOf, DayNumber, DayOfYear;
    DayNumberOfDate(DayOf(t));
    DayOfYearByNumber(DateOf(DayOf(t)));
  }

  lemma SecondsOfDay(t: int)
    ensures var s := t % SECONDS_PER_DAY; s / 3600 * 3600 + s / 60 % 60 * 60 + s % 60 == s
  {
    var s := t % SECONDS_PER_DAY;
    assert s / 60 / 60 == s / 3600;
  }

  /** `fromUtcTime` undoes `toUtcTime` on every second from the first day on. */
  lemma UtcRoundTrip(t: int)
    requires DayOf(t) >= FIRST_DAY
    ensures FromUtcTm(BrokenDown(t)) == t
  {
    SecondsOfDay(t);
    DayNumberOfDate(DayOf(t));
    JulianDayNumberIsDayNumber(DateOf(DayOf(t)));
  }

  /** `toUtcTime` undoes `fromUtcTime` on every valid date and time from the first day on. */
  lemma UtcFieldsRoundTrip(d: YearMonthDay, hour: int, min: int, sec: int)
    requires ValidDate(d) && InRange(d)
    requires 0 <= hour < 24 && 0 <= min < 60 && 0 <= sec < 60
    ensures var u := BrokenDown(FromUtcTime(d.year, d.month, d.day, hour, min, sec));
            && YearMonthDay(u.year + 1900, u.mon + 1, u.mday) == d
            && u.hour == hour && u.min == min && u.sec == sec
  {
    hide DateOf, DayNumber, GetJulianDayNumber, DayOfYear;
    JulianDayNumberIsDayNumber(d);
    DateOfDayNumber(d);
    var s := hour * 3600 + min * 60 + sec;
    var t := FromUtcTime(d.year, d.month, d.day, hour, min, sec);
    assert t == (DayNumber(d) - JULIAN_DAY_OF_1970_01_01) * SECONDS_PER_DAY + s;
    assert t / SECONDS_PER_DAY == DayNumber(d) - JULIAN_DAY_OF_1970_01_01 && t % SECONDS_PER_DAY == s;
    HmsOfSeconds(s, hour, min, sec);
  }

  /** One day later is the calendar's next day and the next day of the week, at the same time. */
  lemma NextDayAtSameTime(t: int)
    ensures var u := BrokenDown(t); var v := BrokenDown(t + SECONDS_PER_DAY);
            && YearMonthDay(v.year + 1900, v.mon + 1, v.mday) == NextDay(YearMonthDay(u.year + 1900, u.mon + 1, u.mday))
            && (v.hour, v.min, v.sec) == (u.hour, u.min, u.sec)
            && v.wday == (u.wday + 1) % 7
  {
    hide DateOf, DayNumber, NextDay, DayOfYear;
    var j := DayOf(t);
    assert (t + SECONDS_PER_DAY) / SECONDS_PER_DAY == t / SECONDS_PER_DAY + 1;
    DayNumberOfDate(j);
    NextDayNumber(DateOf(j));
    DateOfDayNumber(NextDay(DateOf(j)));
    NextWeekday(t / SECONDS_PER_DAY + 4);
  }

  lemma NextWeekday(x: int)
    ensures (x + 1) % 7 == (x % 7 + 1) % 7
  {
  }

  /** No 32-bit `int` of the two conversions overflows while the day number stays in bounds. */
  lemma UtcFitsInt32(t: int)
    requires FIRST_DAY <= DayOf(t) <= LAST_DAY_IN_INT32
    ensures Int32(Rem(t, SECONDS_PER_DAY)) && Int32(Quot(t, SECONDS_PER_DAY)) && Int32(DayOf(t) + 1)
    ensures GetYearMonthDayFits(DayOf(t))
    ensures var u := BrokenDown(t);
            && GetJulianDayNumberFits(u.year + 1900, u.mon + 1, u.mday)
            && GetJulianDayNumberFits(u.year + 1900, 1, 1)
            && Int32(u.hour * 3600 + u.min * 60 + u.sec)
  {
    hide DateOf, GetYearMonthDay, GetYearMonthDayFits, GetJulianDayNumberFits, DayOfYear;
    YearMonthDayOverflow(DayOf(t));
    YearMonthDayIsDateOf(DayOf(t));
    JulianDayNumberFits(DayOf(t));
    SecondsOfDay(t);
    assert t >= 0 ==> Quot(t, SECONDS_PER_DAY) == t / SECONDS_PER_DAY;
    assert t < 0 ==> Quot(t, SECONDS_PER_DAY) <= t / SECONDS_PER_DAY + 1;
  }
}
