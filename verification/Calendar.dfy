/** Integer division and remainder of C++ `int`: the quotient is truncated toward zero. */
module Truncation {

  function Quot(a: int, b: int): (q: int)
    requires b > 0
    ensures a >= 0 ==> q == a / b
  {
    if a >= 0 then a / b else -((-a) / b)
  }

  function Rem(a: int, b: int): (r: int)
    requires b > 0
    ensures a >= 0 ==> 0 <= r < b
    ensures a <= 0 ==> -b < r <= 0
  {
    a - b * Quot(a, b)
  }

  predicate Int32(x: int) {
    -0x8000_0000 <= x < 0x8000_0000
  }
}

/**
  Julian day numbers (`muduo/base/Date.cc`). The proleptic Gregorian calendar is fixed by the
  leap-year rule, `NextDay` and one anchor; the closed formulas of the source are measured
  against it.
 */
module Calendar {
  import opened Truncation

  datatype YearMonthDay = YearMonthDay(year: int, month: int, day: int)

  const JULIAN_DAY_OF_1970_01_01 := 2440588
  /** 1 March 4801 BC: the first day whose computation stays clear of negative operands. */
  const FIRST_DAY := -32044
  const LAST_DAY_IN_INT32 := 536838867

  // ---------------------------------------------------------------- the calendar itself

  predicate IsLeapYear(year: int) {
    year % 400 == 0 || (year % 4 == 0 && year % 100 != 0)
  }

  function DaysOfMonth(year: int, month: int): int {
    if month == 2 then (if IsLeapYear(year) then 29 else 28)
    else if month == 4 || month == 6 || month == 9 || month == 11 then 30
    else 31
  }

  predicate ValidDate(d: YearMonthDay) {
    1 <= d.month <= 12 && 1 <= d.day <= DaysOfMonth(d.year, d.month)
  }

  function NextDay(d: YearMonthDay): YearMonthDay {
    if d.day < DaysOfMonth(d.year, d.month) then d.(day := d.day + 1)
    else if d.month < 12 then YearMonthDay(d.year, d.month + 1, 1)
    else YearMonthDay(d.year + 1, 1, 1)
  }

  /** The dates on which the source's formula has no negative intermediate value. */
  predicate InRange(d: YearMonthDay) {
    d.year > -4800 || (d.year == -4800 && d.month >= 3)
  }

  // ---------------------------------------------------------------- the source's formulas

  function GetJulianDayNumber(year: int, month: int, day: int): int {
    var a := Quot(14 - month, 12);
    var y := year + 4800 - a;
    var m := month + 12 * a - 3;
    day + Quot(153 * m + 2, 5) + y * 365 + Quot(y, 4) - Quot(y, 100) + Quot(y, 400) - 32045
  }

  function GetYearMonthDay(julianDayNumber: int): YearMonthDay {
    var a := julianDayNumber + 32044;
    var b := Quot(4 * a + 3, 146097);
    var c := a - Quot(b * 146097, 4);
    var d := Quot(4 * c + 3, 1461);
    var e := c - Quot(1461 * d, 4);
    MonthAndDay(b * 100 + d, e)
  }

  /** The last four lines of `getYearMonthDay`: day e of the year y that starts in March. */
  function MonthAndDay(y: int, e: int): YearMonthDay {
    var m := Quot(5 * e + 2, 153);
    YearMonthDay(y - 4800 + Quot(m, 10), m + 3 - 12 * Quot(m, 10), e - Quot(153 * m + 2, 5) + 1)
  }

  /** Every intermediate `int` of `getYearMonthDay` fits 32 bits. */
  predicate GetYearMonthDayFits(julianDayNumber: int) {
    var a := julianDayNumber + 32044;
    var b := Quot(4 * a + 3, 146097);
    var c := a - Quot(b * 146097, 4);
    var d := Quot(4 * c + 3, 1461);
    var e := c - Quot(1461 * d, 4);
    var m := Quot(5 * e + 2, 153);
    && Int32(a) && Int32(4 * a) && Int32(4 * a + 3) && Int32(b * 146097) && Int32(c)
    && Int32(4 * c) && Int32(4 * c + 3) && Int32(1461 * d) && Int32(e) && Int32(5 * e)
    && Int32(5 * e + 2) && Int32(153 * m) && Int32(153 * m + 2) && Int32(12 * Quot(m, 10))
    && Int32(b * 100) && Int32(b * 100 + d)
  }

  /** Every intermediate `int` of `getJulianDayNumber` fits 32 bits. */
  predicate GetJulianDayNumberFits(year: int, month: int, day: int) {
    var a := Quot(14 - month, 12);
    var y := year + 4800 - a;
    var m := month + 12 * a - 3;
    var s0 := day + Quot(153 * m + 2, 5);
    var s1 := s0 + y * 365;
    var s2 := s1 + Quot(y, 4);
    var s3 := s2 - Quot(y, 100);
    var s4 := s3 + Quot(y, 400);
    && Int32(14 - month) && Int32(year + 4800) && Int32(y) && Int32(12 * a) && Int32(month + 12 * a)
    && Int32(153 * m) && Int32(153 * m + 2) && Int32(y * 365)
    && Int32(s0) && Int32(s1) && Int32(s2) && Int32(s3) && Int32(s4) && Int32(s4 - 32045)
  }

  // ---------------------------------------------------------------- flooring reference

  /** Days from 1 March of a year to the first of the m-th month after March. */
  function MonthStart(m: int): int { (153 * m + 2) / 5 }

  /** Days from 1 March of year 0 (shifted by 4800) to 1 March of year y. */
  function YearStart(y: int): int { 365 * y + y / 4 - y / 100 + y / 400 }

  function MarchYear(d: YearMonthDay): int {
    d.year + 4800 - (if d.month <= 2 then 1 else 0)
  }

  function MarchMonth(d: YearMonthDay): int {
    if d.month <= 2 then d.month + 9 else d.month - 3
  }

  /** Day number of any date, however early. */
  function DayNumber(d: YearMonthDay): int {
    d.day + MonthStart(MarchMonth(d)) + YearStart(MarchYear(d)) - 32045
  }

  /** Date of any day number, however early. */
  function DateOf(j: int): YearMonthDay {
    var a := j + 32044;
    var b := (4 * a + 3) / 146097;
    var c := a - (b * 146097) / 4;
    var d := (4 * c + 3) / 1461;
    var e := c - (1461 * d) / 4;
    FromMarch(b * 100 + d, e)
  }

  /** Day e after 1 March of year y (shifted by 4800). */
  function FromMarch(y: int, e: int): YearMonthDay {
    var m := (5 * e + 2) / 153;
    YearMonthDay(y - 4800 + m / 10, m + 3 - 12 * (m / 10), e - MonthStart(m) + 1)
  }

  // ---------------------------------------------------------------- inverses, all days

  /** A year is a century and a rest; its start splits the same way. */
  lemma CenturySplit(b: int, d: int)
    requires 0 <= d < 100
    ensures YearStart(100 * b + d) == (146097 * b) / 4 + (1461 * d) / 4
  {
    var y := 100 * b + d;
    assert y / 100 == b;
    assert y / 400 == b / 4;
    assert y / 4 == 25 * b + d / 4;
  }

  lemma Carry4(y: int)
    ensures (y + 1) / 4 - y / 4 == if (y + 1) % 4 == 0 then 1 else 0
  {
  }

  lemma Carry100(y: int)
    ensures (y + 1) / 100 - y / 100 == if (y + 1) % 100 == 0 then 1 else 0
  {
  }

  lemma Carry400(y: int)
    ensures (y + 1) / 400 - y / 400 == if (y + 1) % 400 == 0 then 1 else 0
  {
  }

  lemma Divisors(z: int)
    ensures z % 100 == 0 ==> z % 4 == 0
    ensures z % 400 == 0 ==> z % 100 == 0
  {
  }

  /** Length of the year that starts on 1 March of y: it ends with the February of y + 1. */
  lemma YearLength(y: int)
    ensures YearStart(y + 1) - YearStart(y) == if IsLeapYear(y + 1) then 366 else 365
  {
    Carry4(y);
    Carry100(y);
    Carry400(y);
    Divisors(y + 1);
  }

  /** Days left over inside a year give back the month. */
  lemma MonthOfDay(m: int, day: int)
    requires 0 <= m <= 11 && 1 <= day <= MonthStart(m + 1) - MonthStart(m)
    ensures (5 * (MonthStart(m) + day - 1) + 2) / 153 == m
  {
  }

  lemma DayOfCentury(d: int, e: int)
    requires 0 <= d < 100 && 0 <= e < 366
    requires e == 365 ==> d % 4 == 3
    ensures (4 * ((1461 * d) / 4 + e) + 3) / 1461 == d
    ensures 0 <= (1461 * d) / 4 + e <= 36524
    ensures (1461 * d) / 4 + e == 36524 ==> d == 99 && e == 365
  {
  }

  lemma DayOfEra(b: int, c: int)
    requires 0 <= c <= 36524
    requires c == 36524 ==> b % 4 == 3
    ensures (4 * ((146097 * b) / 4 + c) + 3) / 146097 == b
  {
    var r := 4 * c + 3 - b % 4;
    assert (146097 * b) / 4 == 36524 * b + b / 4;
    assert 4 * ((146097 * b) / 4 + c) + 3 == 146097 * b + r;
    assert 0 <= r < 146097;
  }

  /** The last day of a 366-day year only exists where the leap-year rule allows it. */
  lemma LeapCentury(b: int, d: int)
    requires 0 <= d < 100 && IsLeapYear(100 * b + d + 1)
    ensures d % 4 == 3
    ensures d == 99 ==> b % 4 == 3
  {
    LeapIsFourth(100 * b + d + 1);
    hide IsLeapYear;
    FourthYear(b, d);
    if d == 99 {
      assert 100 * b + d + 1 == 100 * b + 100;
      LastOfCentury(b);
    }
  }

  lemma LeapIsFourth(year: int)
    requires IsLeapYear(year)
    ensures year % 4 == 0
  {
    if year % 400 == 0 { assert year == 4 * (100 * (year / 400)); }
  }

  lemma FourthYear(b: int, d: int)
    requires (100 * b + d + 1) % 4 == 0
    ensures d % 4 == 3
  {
    assert 100 * b + d + 1 == 4 * (25 * b) + (d + 1);
  }

  lemma LastOfCentury(b: int)
    requires IsLeapYear(100 * b + 100)
    ensures b % 4 == 3
  {
    assert (100 * b + 100) % 100 == 0;
    assert (100 * b + 100) % 400 == 0;
  }

  /** Day n of the March-based era is day e of year y, and the source's three steps find them. */
  lemma YearOfDay(y: int, e: int)
    requires 0 <= e < 366
    requires e == 365 ==> IsLeapYear(y + 1)
    ensures var n := YearStart(y) + e;
            var b := (4 * n + 3) / 146097;
            var c := n - (b * 146097) / 4;
            var d := (4 * c + 3) / 1461;
            100 * b + d == y && c - (1461 * d) / 4 == e
  {
    var b, d := y / 100, y % 100;
    assert y == 100 * b + d;
    CenturySplit(b, d);
    if e == 365 { LeapCentury(b, d); }
    DayOfCentury(d, e);
    DayOfEra(b, (1461 * d) / 4 + e);
  }

  lemma Shift4(year: int)
    ensures (year + 4800) % 4 == year % 4
  {
    assert year + 4800 == 4 * (year / 4 + 1200) + year % 4;
  }

  lemma Shift100(year: int)
    ensures (year + 4800) % 100 == year % 100
  {
    assert year + 4800 == 100 * (year / 100 + 48) + year % 100;
  }

  lemma Shift400(year: int)
    ensures (year + 4800) % 400 == year % 400
  {
    assert year + 4800 == 400 * (year / 400 + 12) + year % 400;
  }

  lemma LeapShift(year: int)
    ensures IsLeapYear(year + 4800) == IsLeapYear(year)
  {
    Shift4(year);
    Shift100(year);
    Shift400(year);
  }

  /** Months as counted by the calendar and by the 153-days-in-5-months rule. */
  lemma MonthLength(d: YearMonthDay)
    requires ValidDate(d)
    ensures var m := MarchMonth(d);
            && 0 <= m <= 11
            && 1 <= d.day <= MonthStart(m + 1) - MonthStart(m)
            && 0 <= MonthStart(m) + d.day - 1 < 366
            && (MonthStart(m) + d.day - 1 == 365 ==> d.month == 2 && IsLeapYear(d.year))
  {
  }

  lemma FromMarchOfDate(d: YearMonthDay)
    requires ValidDate(d)
    ensures FromMarch(MarchYear(d), MonthStart(MarchMonth(d)) + d.day - 1) == d
  {
    MonthLength(d);
    MonthOfDay(MarchMonth(d), d.day);
  }

  lemma DateOfMarchDay(y: int, e: int)
    requires 0 <= e < 366
    requires e == 365 ==> IsLeapYear(y + 1)
    ensures DateOf(YearStart(y) + e - 32044) == FromMarch(y, e)
  {
    YearOfDay(y, e);
  }

  lemma MarchDayOfDate(d: YearMonthDay) returns (y: int, e: int)
    requires ValidDate(d)
    ensures y == MarchYear(d) && e == MonthStart(MarchMonth(d)) + d.day - 1
    ensures 0 <= e < 366 && (e == 365 ==> IsLeapYear(y + 1))
    ensures DayNumber(d) == YearStart(y) + e - 32044
    ensures FromMarch(y, e) == d
  {
    y, e := MarchYear(d), MonthStart(MarchMonth(d)) + d.day - 1;
    MonthLength(d);
    FromMarchOfDate(d);
    if e == 365 {
      LeapShift(d.year);
      assert y + 1 == d.year + 4800;
    }
  }

  lemma DateOfDayNumber(d: YearMonthDay)
    requires ValidDate(d)
    ensures DateOf(DayNumber(d)) == d
  {
    var y, e := MarchDayOfDate(d);
    DateOfMarchDay(y, e);
  }

  lemma CenturyOfDay(a: int) returns (b: int, c: int)
    ensures b == (4 * a + 3) / 146097 && c == a - (b * 146097) / 4
    ensures 0 <= c <= 36524 && (c == 36524 ==> b % 4 == 3)
  {
    b := (4 * a + 3) / 146097;
    c := a - (b * 146097) / 4;
    assert (b * 146097) % 4 == b % 4;
  }

  lemma YearOfCenturyDay(c: int) returns (d: int, e: int)
    requires 0 <= c <= 36524
    ensures d == (4 * c + 3) / 1461 && e == c - (1461 * d) / 4
    ensures 0 <= d < 100 && 0 <= e < 366 && (e == 365 ==> d % 4 == 3)
    ensures d == 99 && e == 365 ==> c == 36524
  {
    d := (4 * c + 3) / 1461;
    e := c - (1461 * d) / 4;
  }

  lemma LeapFromCentury(b: int, d: int)
    requires 0 <= d < 100 && d % 4 == 3
    requires d == 99 ==> b % 4 == 3
    ensures IsLeapYear(100 * b + d + 1)
  {
    var z := 100 * b + d + 1;
    if d == 99 {
      assert z == 400 * (b / 4 + 1);
    } else {
      assert z % 100 == d + 1;
      assert z % 4 == 0;
    }
  }

  lemma YearStartSign(y: int)
    ensures y >= 0 ==> YearStart(y) >= 0
    ensures y < 0 ==> YearStart(y) <= -366
  {
    assert y < 0 ==> y / 4 - y / 100 + y / 400 <= -1;
  }

  /** Every day number is some day e of some March-based year y. */
  lemma MarchDayOfNumber(j: int) returns (y: int, e: int)
    ensures 0 <= e < 366 && (e == 365 ==> IsLeapYear(y + 1))
    ensures j == YearStart(y) + e - 32044
    ensures DateOf(j) == FromMarch(y, e)
    ensures j >= FIRST_DAY <==> y >= 0
  {
    hide IsLeapYear, FromMarch;
    var b, c := CenturyOfDay(j + 32044);
    var d;
    d, e := YearOfCenturyDay(c);
    y := 100 * b + d;
    if e == 365 { LeapFromCentury(b, d); }
    CenturySplit(b, d);
    YearStartSign(y);
  }

  lemma FromMarchIsValid(y: int, e: int)
    requires 0 <= e < 366 && (e == 365 ==> IsLeapYear(y + 1))
    ensures var d := FromMarch(y, e);
            ValidDate(d) && MarchYear(d) == y && MonthStart(MarchMonth(d)) + d.day - 1 == e
  {
    LeapShift(y + 1 - 4800);
    var m := (5 * e + 2) / 153;
    assert 0 <= m <= 11;
    assert 0 <= e - MonthStart(m) < MonthStart(m + 1) - MonthStart(m);
    if m == 11 { assert FromMarch(y, e).year == y + 1 - 4800; }
  }

  lemma DayNumberOfDate(j: int)
    ensures ValidDate(DateOf(j))
    ensures DayNumber(DateOf(j)) == j
  {
    var y, e := MarchDayOfNumber(j);
    FromMarchIsValid(y, e);
  }

  /** The calendar's next day has the next number: the anchor for all day counting. */
  lemma NextDayNumber(d: YearMonthDay)
    requires ValidDate(d)
    ensures ValidDate(NextDay(d))
    ensures DayNumber(NextDay(d)) == DayNumber(d) + 1
  {
    hide YearStart;
    YearLength(MarchYear(d));
    LeapShift(d.year);
  }

  lemma EpochDay()
    ensures DayNumber(YearMonthDay(1970, 1, 1)) == JULIAN_DAY_OF_1970_01_01
    ensures GetJulianDayNumber(1970, 1, 1) == JULIAN_DAY_OF_1970_01_01
  {
  }

  // ---------------------------------------------------------------- the source against it

  lemma JulianDayNumberIsDayNumber(d: YearMonthDay)
    requires ValidDate(d)
    ensures InRange(d) <==> MarchYear(d) >= 0
    ensures InRange(d) ==> GetJulianDayNumber(d.year, d.month, d.day) == DayNumber(d)
    ensures InRange(d) <==> DayNumber(d) >= FIRST_DAY
  {
    var y, e := MarchDayOfDate(d);
    YearStartSign(y);
    assert Quot(14 - d.month, 12) == if d.month <= 2 then 1 else 0;
  }

  lemma MonthAndDayIsFromMarch(y: int, e: int)
    requires e >= 0
    ensures MonthAndDay(y, e) == FromMarch(y, e)
  {
    assert (5 * e + 2) / 153 >= 0;
  }

  lemma YearMonthDayIsDateOf(j: int)
    requires j >= FIRST_DAY
    ensures GetYearMonthDay(j) == DateOf(j)
  {
    hide FromMarch, MonthAndDay, Quot;
    var b, c := CenturyOfDay(j + 32044);
    var d, e := YearOfCenturyDay(c);
    MonthAndDayIsFromMarch(b * 100 + d, e);
  }

  /** Below the first day the truncating divisions push the day of the month to zero or less. */
  lemma YearMonthDayBeforeFirst(j: int)
    requires j < FIRST_DAY
    ensures GetYearMonthDay(j).day <= 0
  {
    hide Quot;
    var a := j + 32044;
    var b := Quot(4 * a + 3, 146097);
    var c := a - Quot(b * 146097, 4);
    EraBefore(a);
    var d := Quot(4 * c + 3, 1461);
    var e := c - Quot(1461 * d, 4);
    CenturyBefore(c);
    MonthBefore(e);
  }

  lemma EraBefore(a: int)
    requires a < 0
    ensures a - Quot(Quot(4 * a + 3, 146097) * 146097, 4) < 0
  {
  }

  lemma CenturyBefore(c: int)
    requires c < 0
    ensures c - Quot(1461 * Quot(4 * c + 3, 1461), 4) < 0
  {
  }

  lemma MonthBefore(e: int)
    requires e < 0
    ensures e - Quot(153 * Quot(5 * e + 2, 153) + 2, 5) + 1 <= 0
  {
  }

  lemma JulianDayNumberBeforeFirst(d: YearMonthDay)
    requires ValidDate(d) && !InRange(d)
    ensures GetJulianDayNumber(d.year, d.month, d.day) <= FIRST_DAY
  {
    MonthLength(d);
    JulianDayNumberIsDayNumber(d);
    var y := MarchYear(d);
    assert Quot(14 - d.month, 12) == if d.month <= 2 then 1 else 0;
    assert y <= -1;
    assert y * 365 + Quot(y, 4) - Quot(y, 100) + Quot(y, 400) <= -365;
  }

  /** `getYearMonthDay` gives a calendar date, and the right one, exactly from the first day on. */
  lemma YearMonthDayExact(j: int)
    ensures ValidDate(GetYearMonthDay(j)) <==> j >= FIRST_DAY
    ensures j >= FIRST_DAY ==> var d := GetYearMonthDay(j); GetJulianDayNumber(d.year, d.month, d.day) == j
  {
    if j >= FIRST_DAY {
      YearMonthDayIsDateOf(j);
      DayNumberOfDate(j);
      JulianDayNumberIsDayNumber(DateOf(j));
    } else {
      YearMonthDayBeforeFirst(j);
    }
  }

  lemma RoundTripInRange(d: YearMonthDay)
    requires ValidDate(d) && InRange(d)
    ensures GetYearMonthDay(GetJulianDayNumber(d.year, d.month, d.day)) == d
  {
    JulianDayNumberIsDayNumber(d);
    YearMonthDayIsDateOf(DayNumber(d));
    DateOfDayNumber(d);
  }

  lemma FirstDate()
    ensures GetYearMonthDay(FIRST_DAY) == YearMonthDay(-4800, 3, 1)
  {
    assert DayNumber(YearMonthDay(-4800, 3, 1)) == FIRST_DAY;
    hide GetYearMonthDay, DateOf, DayNumber;
    YearMonthDayIsDateOf(FIRST_DAY);
    DateOfDayNumber(YearMonthDay(-4800, 3, 1));
  }

  lemma NotTheDateBefore(d: YearMonthDay, j: int)
    requires ValidDate(d) && !InRange(d) && j <= FIRST_DAY
    ensures GetYearMonthDay(j) != d
  {
    if j < FIRST_DAY { YearMonthDayBeforeFirst(j); } else { FirstDate(); }
  }

  lemma RoundTripBeforeFirst(d: YearMonthDay)
    requires ValidDate(d) && !InRange(d)
    ensures GetYearMonthDay(GetJulianDayNumber(d.year, d.month, d.day)) != d
  {
    JulianDayNumberBeforeFirst(d);
    NotTheDateBefore(d, GetJulianDayNumber(d.year, d.month, d.day));
  }

  /** `getYearMonthDay` undoes `getJulianDayNumber` on a valid date exactly from 1 March 4801 BC on. */
  lemma JulianDayRoundTrip(d: YearMonthDay)
    requires ValidDate(d)
    ensures GetYearMonthDay(GetJulianDayNumber(d.year, d.month, d.day)) == d <==> InRange(d)
  {
    if InRange(d) { RoundTripInRange(d); } else { RoundTripBeforeFirst(d); }
  }

  /** Consecutive calendar days get consecutive numbers. */
  lemma JulianNextDay(d: YearMonthDay)
    requires ValidDate(d) && InRange(d)
    ensures var n := NextDay(d);
            GetJulianDayNumber(n.year, n.month, n.day) == GetJulianDayNumber(d.year, d.month, d.day) + 1
  {
    NextDayNumber(d);
    JulianDayNumberIsDayNumber(d);
    JulianDayNumberIsDayNumber(NextDay(d));
  }

  /** 32-bit `int` is wide enough for `getYearMonthDay` up to one day number, and no further. */
  lemma YearMonthDayOverflow(j: int)
    requires j >= FIRST_DAY
    ensures GetYearMonthDayFits(j) <==> j <= LAST_DAY_IN_INT32
  {
    var b, c := CenturyOfDay(j + 32044);
    var d, e := YearOfCenturyDay(c);
    if j <= LAST_DAY_IN_INT32 {
      assert 0 <= b <= 14700;
      assert 0 <= (5 * e + 2) / 153 <= 11;
    }
  }

  lemma SmallYearQuotients(y: int)
    requires -1 <= y <= 1470900
    ensures 0 <= Quot(y, 4) <= 367725 && 0 <= Quot(y, 100) <= 14709 && 0 <= Quot(y, 400) <= 3677
  {
  }

  lemma MonthQuotients(month: int)
    requires 1 <= month <= 12
    ensures var a := Quot(14 - month, 12);
            && a == (if month <= 2 then 1 else 0)
            && 0 <= month + 12 * a - 3 <= 11
            && 0 <= Quot(153 * (month + 12 * a - 3) + 2, 5) <= 337
  {
  }

  lemma SumFits(day: int, months: int, y: int, fours: int, hundreds: int, fourHundreds: int)
    requires 1 <= day <= 31 && 0 <= months <= 337 && -1 <= y <= 1470900
    requires 0 <= fours <= 367725 && 0 <= hundreds <= 14709 && 0 <= fourHundreds <= 3677
    ensures var s1 := day + months + y * 365;
            && Int32(y * 365) && Int32(day + months) && Int32(s1) && Int32(s1 + fours)
            && Int32(s1 + fours - hundreds) && Int32(s1 + fours - hundreds + fourHundreds)
            && Int32(s1 + fours - hundreds + fourHundreds - 32045)
  {
  }

  lemma SmallYearFits(d: YearMonthDay)
    requires ValidDate(d) && -4801 < d.year <= 1466100
    ensures GetJulianDayNumberFits(d.year, d.month, d.day)
  {
    assert 1 <= d.day <= 31;
    hide Quot, IsLeapYear, DaysOfMonth;
    MonthQuotients(d.month);
    var a := Quot(14 - d.month, 12);
    var y := d.year + 4800 - a;
    assert Int32(14 - d.month) && Int32(d.year + 4800) && Int32(y) && Int32(153 * (d.month + 12 * a - 3) + 2);
    SmallYearQuotients(y);
    SumFits(d.day, Quot(153 * (d.month + 12 * a - 3) + 2, 5), y, Quot(y, 4), Quot(y, 100), Quot(y, 400));
  }

  lemma YearStartGrows(y: int)
    requires y >= 0
    ensures YearStart(y) >= 365 * y
  {
  }

  lemma YearOfSmallDay(j: int)
    requires FIRST_DAY <= j <= LAST_DAY_IN_INT32
    ensures ValidDate(DateOf(j)) && -4801 < DateOf(j).year <= 1466100
  {
    var y, e := MarchDayOfNumber(j);
    FromMarchIsValid(y, e);
    YearStartGrows(y);
    assert 0 <= y <= 1470880;
  }

  /** ... and then `getJulianDayNumber` does not overflow on the date found or its new year. */
  lemma JulianDayNumberFits(j: int)
    requires FIRST_DAY <= j <= LAST_DAY_IN_INT32
    ensures var d := GetYearMonthDay(j); GetJulianDayNumberFits(d.year, d.month, d.day)
    ensures var d := GetYearMonthDay(j); GetJulianDayNumberFits(d.year, 1, 1)
  {
    YearMonthDayIsDateOf(j);
    YearOfSmallDay(j);
    SmallYearFits(DateOf(j));
    SmallYearFits(YearMonthDay(DateOf(j).year, 1, 1));
  }
}
