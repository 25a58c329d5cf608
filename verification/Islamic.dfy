/** The tabular Islamic calendar: 30-year eras of 10631 days. */
module Islamic {
  import Gregorian

  datatype Date = Date(year: int, month: int, day: int)

  function EraOf(a: int, len: int): int
    requires 0 < len
  {
    Gregorian.EraOf(a, len)
  }

  // ---- the calendar rules

  /** The years of an era, from 0, that the leap test lists. */
  predicate LeapOfEra(yoe: int) {
    yoe == 1 || yoe == 4 || yoe == 6 || yoe == 9 || yoe == 12 || yoe == 15 || yoe == 17 || yoe == 20 ||
    yoe == 23 || yoe == 25 || yoe == 28
  }

  predicate IsLeap(year: int) {
    LeapOfEra(year - 1 - EraOf(year - 1, 30) * 30)
  }

  /** Months alternate 30 and 29 days; month 12 of a leap year has 30. */
  function LastDay(y: int, m: int): int {
    if m == 12 && IsLeap(y) then 30 else if m % 2 == 1 then 30 else 29
  }

  predicate Ok(d: Date) { 1 <= d.month <= 12 && 1 <= d.day <= LastDay(d.year, d.month) }

  predicate Before(a: Date, b: Date) {
    a.year < b.year || (a.year == b.year && (a.month < b.month || (a.month == b.month && a.day < b.day)))
  }

  function NextDay(d: Date): Date {
    if d.day < LastDay(d.year, d.month) then d.(day := d.day + 1)
    else if d.month < 12 then Date(d.year, d.month + 1, 1)
    else Date(d.year + 1, 1, 1)
  }

  // ---- the branch-free algorithms

  function ToDays(date: Date): int {
    var y := date.year - 1;
    var era := EraOf(y, 30);
    var yoe := y - era * 30;
    var doy := 29 * (date.month - 1) + date.month / 2 + date.day - 1;
    var doe := yoe * 354 + (11 * (yoe + 1) + 3) / 30 + doy;
    era * 10631 + doe - 492148
  }

  function YearOfEra(doe: int): int { (30 * doe + 10646) / 10631 - 1 }

  function FromDays(days: int): Date {
    var z := days + 492148;
    var era := EraOf(z, 10631);
    var doe := z - era * 10631;
    var yoe := YearOfEra(doe);
    var y := yoe + era * 30 + 1;
    var doy := doe - (yoe * 354 + (11 * (yoe + 1) + 3) / 30);
    var m := (11 * doy + 330) / 325;
    var d := doy - (29 * (m - 1) + m / 2) + 1;
    Date(y, m, d)
  }

  // ---- years of an era, months of a year

  function YearStart(yoe: int): int { yoe * 354 + (11 * (yoe + 1) + 3) / 30 }

  function YearLength(yoe: int): int { if LeapOfEra(yoe) then 355 else 354 }

  /** The division term of the day count steps exactly at the listed leap years. */
  lemma TermStepsAtLeapYears(yoe: int)
    requires 0 <= yoe < 30
    ensures (11 * (yoe + 2) + 3) / 30 == (11 * (yoe + 1) + 3) / 30 + if LeapOfEra(yoe) then 1 else 0
    ensures YearStart(yoe) + YearLength(yoe) == if yoe == 29 then 10631 else YearStart(yoe + 1)
  {}

  lemma {:induction false} YearStartMonotone(a: int, b: int)
    requires 0 <= a < b < 30
    ensures YearStart(a) + YearLength(a) <= YearStart(b)
  {
    TermStepsAtLeapYears(a);
    if a + 1 < b {
      YearStartMonotone(a, b - 1);
      TermStepsAtLeapYears(b - 1);
    }
  }

  /** The rounded division inverts the year starts. */
  lemma YearUnique(yoe: int, doy: int)
    requires 0 <= yoe < 30 && 0 <= doy < YearLength(yoe)
    ensures YearOfEra(YearStart(yoe) + doy) == yoe
    ensures 0 <= YearStart(yoe) + doy < 10631
  {
    TermStepsAtLeapYears(yoe);
    var t := (11 * (yoe + 1) + 3) / 30;
    var r := 30 * (YearStart(yoe) + doy) + 10646 - 10631 * (yoe + 1);
    assert r == 30 * t + 30 * doy - 11 * (yoe + 1) + 26;
    assert 0 <= r < 10631;
    Gregorian.FloorUnique(30 * (YearStart(yoe) + doy) + 10646, 10631, yoe + 1, r);
  }

  lemma YearContaining(doe: int, yoe: int)
    requires 0 <= yoe < 30 && 0 <= doe < YearStart(yoe) + YearLength(yoe)
    ensures 0 <= YearOfEra(doe) <= yoe
    ensures YearStart(YearOfEra(doe)) <= doe < YearStart(YearOfEra(doe)) + YearLength(YearOfEra(doe))
    decreases yoe
  {
    if YearStart(yoe) <= doe {
      YearUnique(yoe, doe - YearStart(yoe));
    } else {
      TermStepsAtLeapYears(yoe - 1);
      YearContaining(doe, yoe - 1);
    }
  }

  function MonthStart(m: int): int { 29 * (m - 1) + m / 2 }

  function MonthLength(m: int, yearLength: int): int {
    if m == 12 then yearLength - 325 else if m % 2 == 1 then 30 else 29
  }

  lemma MonthUnique(doy: int, m: int, yearLength: int)
    requires 1 <= m <= 12 && 354 <= yearLength <= 355
    requires MonthStart(m) <= doy < MonthStart(m) + MonthLength(m, yearLength)
    ensures (11 * doy + 330) / 325 == m && 0 <= doy < yearLength
  {}

  lemma MonthOfYear(doy: int, yearLength: int)
    requires 0 <= doy < yearLength && 354 <= yearLength <= 355
    ensures var m := (11 * doy + 330) / 325;
      1 <= m <= 12 && MonthStart(m) <= doy < MonthStart(m) + MonthLength(m, yearLength)
  {}

  lemma MonthOrder(m: int, m': int, yearLength: int)
    requires 1 <= m < m' <= 12 && 354 <= yearLength <= 355
    ensures MonthStart(m) + MonthLength(m, yearLength) <= MonthStart(m')
    ensures m + 1 == m' ==> MonthStart(m) + MonthLength(m, yearLength) == MonthStart(m')
  {}

  // ---- a date in era coordinates

  function Tabular(era: int, yoe: int, m: int, d: int): Date { Date(yoe + era * 30 + 1, m, d) }

  lemma Coordinates(era: int, yoe: int, m: int, d: int)
    requires 0 <= yoe < 30 && 1 <= m <= 12
    ensures ToDays(Tabular(era, yoe, m, d)) == era * 10631 + YearStart(yoe) + MonthStart(m) + d - 1 - 492148
    ensures LastDay(yoe + era * 30 + 1, m) == MonthLength(m, YearLength(yoe))
  {
    Gregorian.EraFloors(yoe + era * 30, 30);
    Gregorian.FloorUnique(yoe + era * 30, 30, era, yoe);
  }

  lemma Locate(date: Date) returns (era: int, yoe: int)
    requires 1 <= date.month <= 12
    ensures 0 <= yoe < 30 && date == Tabular(era, yoe, date.month, date.day)
  {
    era, yoe := (date.year - 1) / 30, (date.year - 1) % 30;
  }

  lemma DayOfEra(era: int, yoe: int, m: int, d: int)
    requires 0 <= yoe < 30 && 1 <= m <= 12 && 1 <= d <= MonthLength(m, YearLength(yoe))
    ensures var doe := YearStart(yoe) + MonthStart(m) + d - 1;
      && 0 <= doe < 10631 && YearOfEra(doe) == yoe
      && (11 * (doe - YearStart(yoe)) + 330) / 325 == m
      && EraOf(era * 10631 + doe, 10631) == era
  {
    var doy := MonthStart(m) + d - 1;
    MonthUnique(doy, m, YearLength(yoe));
    YearUnique(yoe, doy);
    var doe := YearStart(yoe) + doy;
    Gregorian.EraFloors(era * 10631 + doe, 10631);
    Gregorian.FloorUnique(era * 10631 + doe, 10631, era, doe);
  }

  // ---- the calendar theorems

  lemma DateRoundTrip(date: Date)
    requires Ok(date)
    ensures FromDays(ToDays(date)) == date
  {
    hide ToDays, EraOf, YearOfEra, YearLength, LastDay, MonthLength;
    var era, yoe := Locate(date);
    Coordinates(era, yoe, date.month, date.day);
    DayOfEra(era, yoe, date.month, date.day);
  }

  lemma DaysRoundTrip(z: int)
    ensures Ok(FromDays(z)) && ToDays(FromDays(z)) == z
  {
    hide ToDays, EraOf, YearOfEra, LastDay, MonthLength;
    var era := EraOf(z + 492148, 10631);
    EraBounds(z + 492148);
    var doe := z + 492148 - era * 10631;
    TermStepsAtLeapYears(29);
    YearContaining(doe, 29);
    var yoe := YearOfEra(doe);
    var doy := doe - YearStart(yoe);
    MonthOfYear(doy, YearLength(yoe));
    var m := (11 * doy + 330) / 325;
    Coordinates(era, yoe, m, doy - MonthStart(m) + 1);
  }

  lemma EraBounds(z: int)
    ensures 0 <= z - EraOf(z, 10631) * 10631 < 10631
  {
    Gregorian.EraFloors(z, 10631);
  }

  lemma NextDayCounts(date: Date)
    requires Ok(date)
    ensures Ok(NextDay(date)) && ToDays(NextDay(date)) == ToDays(date) + 1
  {
    hide ToDays, EraOf, YearLength, LastDay;
    var era, yoe := Locate(date);
    var m, d := date.month, date.day;
    Coordinates(era, yoe, m, d);
    YearLengths(yoe);
    if d < LastDay(date.year, m) {
      Coordinates(era, yoe, m, d + 1);
    } else if m < 12 {
      MonthOrder(m, m + 1, YearLength(yoe));
      Coordinates(era, yoe, m + 1, 1);
    } else {
      TermStepsAtLeapYears(yoe);
      if yoe < 29 {
        Coordinates(era, yoe + 1, 1, 1);
      } else {
        Coordinates(era + 1, 0, 1, 1);
      }
    }
  }

  lemma YearLengths(yoe: int)
    ensures 354 <= YearLength(yoe) <= 355
  {}

  lemma EarlierCounts(a: Date, b: Date)
    requires Ok(a) && Ok(b) && Before(a, b)
    ensures ToDays(a) < ToDays(b)
  {
    hide ToDays, EraOf, YearLength, LastDay;
    var ea, ya := Locate(a);
    var eb, yb := Locate(b);
    Coordinates(ea, ya, a.month, a.day);
    Coordinates(eb, yb, b.month, b.day);
    DayOfEra(ea, ya, a.month, a.day);
    DayOfEra(eb, yb, b.month, b.day);
    YearLengths(ya);
    if ea == eb && ya == yb {
      if a.month < b.month {
        MonthOrder(a.month, b.month, YearLength(ya));
      }
    } else if ea == eb {
      MonthUnique(MonthStart(a.month) + a.day - 1, a.month, YearLength(ya));
      YearStartMonotone(ya, yb);
    }
  }

  /** Both calendars count from the same day: 1 Muharram 1 is 19 July 622, 492148 days before 1 January 1970. */
  lemma Epoch()
    ensures ToDays(Date(1, 1, 1)) == Gregorian.ToDays(Gregorian.Date(622, 7, 19)) == -492148
  {
    Gregorian.EraFloors(622, 400);
  }

  /** Day numbers are ordered exactly as dates are. */
  lemma DaysOrderDates(a: Date, b: Date)
    requires Ok(a) && Ok(b)
    ensures Before(a, b) <==> ToDays(a) < ToDays(b)
  {
    if Before(a, b) {
      EarlierCounts(a, b);
    } else if a != b {
      EarlierCounts(b, a);
    }
  }
}
