/** Weekdays, the n-th-weekday-of-the-month form, and ISO week dates. */
module Weekdays {
  import opened Gregorian

  const TWO32: int := 0x1_0000_0000

  function Unsigned(z: int): int { z % TWO32 }

  /** The day of the week by the rules: 1970-01-01 was a Thursday, and Sunday is 0. */
  function Weekday(z: int): int { (z + 4) % 7 }

  /** The branch on 32-bit days, whose negative side relies on `2^32 % 7 == 4`. */
  function WeekdayFromDays(z: int): int
    requires -0x8000_0000 <= z < 0x8000_0000
  {
    var u := Unsigned(z);
    if z >= -4 then Unsigned(u + 4) % 7 else u % 7
  }

  lemma WeekdayFromDaysIsWeekday(z: int)
    requires -0x8000_0000 <= z < 0x8000_0000
    ensures WeekdayFromDays(z) == Weekday(z)
  {
    assert TWO32 == 7 * 613566756 + 4;
    if z < -4 {
      assert Unsigned(z) == z + TWO32;
      SameRemainder(z + 4, 613566756, 7);
    } else if z < 0 {
      assert Unsigned(z) == z + TWO32;
    }
  }

  /** Days forward from weekday `y` to weekday `x`. */
  function Difference(x: int, y: int): int {
    x - y - EraOf(x - y, 7) * 7
  }

  function Plus(x: int, n: int): int {
    x + n - EraOf(x + n, 7) * 7
  }

  /** Weekdays form a cycle of seven: adding a difference reaches the other weekday, and
      the difference of a sum is what was added. */
  lemma WeekdayGroup(x: int, y: int, n: int)
    requires 0 <= x < 7 && 0 <= y < 7
    ensures 0 <= Difference(x, y) < 7 && Plus(y, Difference(x, y)) == x
    ensures Difference(Plus(x, n), x) == n % 7
  {
    hide Difference, Plus;
    Remainders(x, y);
    Remainders(x, n);
    Remainders(y, Difference(x, y));
    Remainders(Plus(x, n), x);
    ForwardAndBack(x, y);
    SameRemainder(n, -((x + n) / 7), 7);
    assert (x + n) % 7 - x == n + -((x + n) / 7) * 7;
  }

  lemma ForwardAndBack(x: int, y: int)
    requires 0 <= x < 7 && 0 <= y < 7
    ensures (y + (x - y) % 7) % 7 == x
  {}

  lemma Remainders(x: int, y: int)
    ensures Difference(x, y) == (x - y) % 7
    ensures Plus(x, y) == (x + y) % 7
  {
    hide EraOf;
    EraFloors(x - y, 7);
    EraFloors(x + y, 7);
  }

  lemma WeekdayAdvances(z: int, n: int)
    ensures Weekday(z + n) == Plus(Weekday(z), n)
    ensures 0 <= Weekday(z) < 7
    ensures 0 <= n < 7 ==> Difference(Weekday(z + n), Weekday(z)) == n
  {
    hide Difference, Plus;
    Remainders(Weekday(z), n);
    Remainders(Weekday(z + n), Weekday(z));
    SameRemainder(Weekday(z) + n, (z + 4) / 7, 7);
    SameRemainder(n, (z + 4) / 7 - (z + n + 4) / 7, 7);
  }

  // ---- year, month, n-th weekday

  datatype NthWeekday = NthWeekday(year: int, month: int, weekday: int, index: int)

  function First(year: int, month: int): int { ToDays(Date(year, month, 1)) }

  predicate NthOk(n: NthWeekday) {
    1 <= n.month <= 12 && 0 <= n.weekday <= 6 && n.index >= 1 &&
    (n.index <= 4 ||
     Difference(n.weekday, Weekday(First(n.year, n.month))) + (n.index - 1) * 7 + 1 <= LastDay(n.year, n.month))
  }

  function NthFromDays(z: int): NthWeekday {
    var d := FromDays(z);
    NthWeekday(d.year, d.month, Weekday(z), (d.day - 1) / 7 + 1)
  }

  function NthToDays(n: NthWeekday): int {
    var d := First(n.year, n.month);
    d + Difference(n.weekday, Weekday(d)) + (n.index - 1) * 7
  }

  lemma DayOfMonth(year: int, month: int, d: int)
    ensures ToDays(Date(year, month, d)) == First(year, month) + d - 1
  {}

  lemma SevenDays(z: int, k: int)
    ensures Weekday(z + 7 * k) == Weekday(z)
  {
    SameRemainder(z + 4, k, 7);
  }

  /** The weekday `i + 7 * k` days after `f` is `i` days forward from that of `f`. */
  lemma WeeksLater(f: int, i: int, k: int)
    requires 0 <= i < 7
    ensures Difference(Weekday(f + i + 7 * k), Weekday(f)) == i
  {
    hide Weekday, Difference;
    SevenDays(f + i, k);
    WeekdayAdvances(f, i);
  }

  lemma NthDaysRoundTrip(z: int)
    ensures NthOk(NthFromDays(z)) && NthToDays(NthFromDays(z)) == z
  {
    hide ToDays, FromDays, Weekday, Difference, LastDay, First, Plus;
    var d := FromDays(z);
    DaysRoundTrip(z);
    DayOfMonth(d.year, d.month, d.day);
    var f, k := First(d.year, d.month), (d.day - 1) / 7;
    WeeksLater(f, d.day - 1 - 7 * k, k);
    WeekdayAdvances(z, 0);
  }

  lemma LastDayRange(y: int, m: int)
    ensures 28 <= LastDay(y, m) <= 31
  {}

  lemma NthRoundTrip(n: NthWeekday)
    requires NthOk(n)
    ensures NthFromDays(NthToDays(n)) == n
  {
    hide ToDays, FromDays, Weekday, Difference, LastDay, First, Plus;
    var f := First(n.year, n.month);
    var k := Difference(n.weekday, Weekday(f));
    WeekdayAdvances(f, 0);
    WeekdayGroup(n.weekday, Weekday(f), 0);
    var d := k + (n.index - 1) * 7 + 1;
    DayOfMonth(n.year, n.month, d);
    LastDayRange(n.year, n.month);
    DateRoundTrip(Date(n.year, n.month, d));
    WeekdayAdvances(f, k);
    SevenDays(f + k, n.index - 1);
  }
}

module IsoWeek {
  import opened Gregorian
  import opened Weekdays

  /** Weekday 1 is Monday and 7 is Sunday. */
  datatype WeekDate = WeekDate(year: int, week: int, weekday: int)

  const THU: int := 4

  /** C++ remainder, which takes the sign of the dividend. */
  function TruncRem(a: int, b: int): int
    requires 0 < b
  {
    a - TruncDiv(a, b) * b
  }

  function IsoWeekday(z: int): int {
    var w := if z >= -4 then TruncRem(z + 4, 7) else TruncRem(z + 5, 7) + 6;
    if w != 0 then w else 7
  }

  /** The difference of two ISO weekdays on 32-bit unsigned numbers. */
  function IsoDifference(x: int, y: int): int {
    var diff := Unsigned(x - y);
    if diff <= 6 then diff else Unsigned(diff + 7)
  }

  /** The last Thursday of December. */
  function LastThursday(y: int): int {
    var d := ToDays(Date(y, 12, 31));
    d - Difference(Weekday(d), THU)
  }

  /** The Monday of week 1. */
  function YearStart(y: int): int { LastThursday(y - 1) + IsoDifference(1, 4) }

  predicate IsLongYear(y: int) { LastThursday(y) - LastThursday(y - 1) != 7 * 52 }

  function LastWeek(y: int): (n: int)
    ensures 52 <= n <= 53
  {
    if IsLongYear(y) then 53 else 52
  }

  predicate IsoOk(w: WeekDate) { 1 <= w.weekday <= 7 && 1 <= w.week <= LastWeek(w.year) }

  function IsoFromDays(d: int): WeekDate {
    var y := FromDays(d + 3).year;
    var y' := if d < YearStart(y) then y - 1 else y;
    WeekDate(y', TruncDiv(d - YearStart(y'), 7) + 1, IsoWeekday(d))
  }

  function IsoToDays(w: WeekDate): int {
    LastThursday(w.year - 1) + IsoDifference(1, 4) + 7 * (w.week - 1) + IsoDifference(w.weekday, 1)
  }

  // ---- the pieces by the rules

  lemma IsoWeekdayMeaning(z: int)
    ensures IsoWeekday(z) == (z + 3) % 7 + 1
  {
    if z < -4 {
      FloorUnique(z + 3, 7, (z + 3) / 7, (z + 3) % 7);
    }
  }

  lemma IsoDifferenceMeaning(x: int, y: int)
    requires 1 <= x <= 7 && 1 <= y <= 7
    ensures IsoDifference(x, y) == if x >= y then x - y else x - y + 7
  {}

  function Jan1(y: int): int { ToDays(Date(y, 1, 1)) }

  lemma YearLengths(y: int)
    ensures Jan1(y + 1) - Jan1(y) == if IsLeap(y) then 366 else 365
    ensures ToDays(Date(y, 12, 31)) == Jan1(y + 1) - 1
  {
    hide ToDays, YearLength, IsLeap;
    var era, yoe, mp := Coordinates(Date(y, 1, 1));
    var era', yoe' := if yoe == 399 then era + 1 else era, if yoe == 399 then 0 else yoe + 1;
    assert Date(y + 1, 1, 1) == Civil(era', yoe', mp, 1);
    CivilToDays(era, yoe, mp, 1);
    CivilToDays(era', yoe', mp, 1);
    LeapOfEra(era, yoe);
    YearStarts(yoe);
    NextDayCounts(Date(y, 12, 31));
  }

  /** Week 1 starts on the Monday of the week with the year's first Thursday. */
  lemma YearStartMeaning(y: int)
    ensures IsoWeekday(YearStart(y)) == 1
    ensures Jan1(y) - 3 <= YearStart(y) <= Jan1(y) + 3
  {
    hide ToDays, Difference, Weekday, IsoWeekday, IsLeap, IsoDifference;
    var d := ToDays(Date(y - 1, 12, 31));
    YearLengths(y - 1);
    LastThursdayMeaning(d);
    IsoDifferenceMeaning(1, 4);
    IsoWeekdayMeaning(YearStart(y));
    MondayAfterThursday(LastThursday(y - 1));
  }

  lemma MondayAfterThursday(t: int)
    requires (t + 4) % 7 == THU
    ensures (t + 4 + 3) % 7 == 0
  {}

  lemma LastThursdayMeaning(d: int)
    ensures 0 <= Difference(Weekday(d), THU) < 7
    ensures (d - Difference(Weekday(d), THU) + 4) % 7 == THU
  {
    hide Difference;
    Remainders(Weekday(d), THU);
    var k := (d + 4) / 7;
    assert Weekday(d) == d + 4 - 7 * k;
    SameRemainder(d, -k, 7);
    var r := Difference(Weekday(d), THU);
    assert r == d % 7;
    FloorUnique(d - r + 4, 7, d / 7, 4);
  }

  /** What `IsLongYear` means for the length of a year: 53 weeks, and 52 otherwise. */
  lemma YearSpan(y: int)
    ensures YearStart(y + 1) - YearStart(y) == if IsLongYear(y) then 371 else 364
  {
    hide ToDays, Difference, Weekday, IsoWeekday;
    YearStartMeaning(y);
    YearStartMeaning(y + 1);
    YearLengths(y);
    IsoWeekdayMeaning(YearStart(y));
    IsoWeekdayMeaning(YearStart(y + 1));
    WholeWeeks(YearStart(y), YearStart(y + 1));
  }

  lemma WholeWeeks(a: int, b: int)
    requires (a + 3) % 7 == 0 && (b + 3) % 7 == 0 && 359 <= b - a <= 372
    ensures b - a == 364 || b - a == 371
  {}

  // ---- the round trips

  lemma YearOfDay(d: int)
    ensures var y := FromDays(d + 3).year; Jan1(y) <= d + 3 < Jan1(y + 1)
  {
    hide ToDays, FromDays;
    var date := FromDays(d + 3);
    DaysRoundTrip(d + 3);
    var first, next := Date(date.year, 1, 1), Date(date.year + 1, 1, 1);
    DaysOrderDates(date, first);
    DaysOrderDates(date, next);
  }

  /** The year picked for a day is the one whose weeks contain it. */
  lemma YearContains(d: int)
    ensures var y := IsoFromDays(d).year; YearStart(y) <= d < YearStart(y + 1)
  {
    hide ToDays, FromDays, YearStart, IsoWeekday;
    var y := FromDays(d + 3).year;
    YearOfDay(d);
    YearStartMeaning(y);
    YearStartMeaning(y + 1);
    YearStartMeaning(y - 1);
    YearLengths(y - 1);
  }

  /** Every day has a valid week date and comes back from it. */
  lemma IsoDaysRoundTrip(d: int)
    ensures IsoOk(IsoFromDays(d)) && IsoToDays(IsoFromDays(d)) == d
  {
    hide FromDays, LastThursday, IsoWeekday, IsLongYear;
    YearContains(d);
    var w := IsoFromDays(d);
    YearSpan(w.year);
    YearStartMeaning(w.year);
    IsoWeekdayMeaning(d);
    IsoWeekdayMeaning(YearStart(w.year));
    IsoDifferenceMeaning(w.weekday, 1);
    WeekSplit(YearStart(w.year), d);
  }

  lemma WeekSplit(start: int, d: int)
    requires (start + 3) % 7 == 0 && start <= d
    ensures TruncDiv(d - start, 7) == (d - start) / 7
    ensures start + 7 * ((d - start) / 7) + (d + 3) % 7 == d
  {
    SameRemainder(d - start, (start + 3) / 7, 7);
  }

  lemma {:induction false} YearsAreDisjoint(a: int, b: int)
    requires a < b
    ensures YearStart(a + 1) <= YearStart(b)
    decreases b - a
  {
    hide YearStart, IsLongYear;
    if a + 1 < b {
      YearsAreDisjoint(a, b - 1);
      YearSpan(b - 1);
    }
  }

  /** A valid week date survives the trip through its day number. */
  lemma IsoRoundTrip(w: WeekDate)
    requires IsoOk(w)
    ensures IsoFromDays(IsoToDays(w)) == w
  {
    hide ToDays, FromDays, LastThursday, IsoWeekday, IsLongYear;
    var d := IsoToDays(w);
    YearSpan(w.year);
    YearStartMeaning(w.year);
    IsoDifferenceMeaning(w.weekday, 1);
    var start := YearStart(w.year);
    assert start <= d < YearStart(w.year + 1);
    YearContains(d);
    var y := IsoFromDays(d).year;
    if y < w.year {
      YearsAreDisjoint(y, w.year);
    } else if w.year < y {
      YearsAreDisjoint(w.year, y);
    }
    IsoWeekdayMeaning(d);
    IsoWeekdayMeaning(start);
    WeekSplit(start, d);
    FloorUnique(d - start, 7, w.week - 1, w.weekday - 1);
  }

  /** A year has a week 53 exactly when `IsLongYear` says so, which by the civil rules
      is when it starts on a Thursday, or is a leap year starting on a Wednesday. */
  lemma LongYears(y: int)
    ensures IsLongYear(y) <==> exists d :: IsoFromDays(d).year == y && IsoFromDays(d).week == 53
    ensures IsLongYear(y) <==> IsoWeekday(Jan1(y)) == 4 || (IsLeap(y) && IsoWeekday(Jan1(y)) == 3)
  {
    hide ToDays, FromDays, LastThursday, IsoWeekday, IsLongYear, IsoFromDays, YearStart, IsoToDays, IsLeap;
    if IsLongYear(y) {
      IsoRoundTrip(WeekDate(y, 53, 1));
    }
    forall d | IsoFromDays(d).year == y && IsoFromDays(d).week == 53
      ensures IsLongYear(y)
    {
      IsoDaysRoundTrip(d);
    }
    YearSpan(y);
    YearLengths(y);
    YearStartMeaning(y);
    YearStartMeaning(y + 1);
    IsoWeekdayMeaning(Jan1(y));
    IsoWeekdayMeaning(YearStart(y));
    IsoWeekdayMeaning(YearStart(y + 1));
  }
}
