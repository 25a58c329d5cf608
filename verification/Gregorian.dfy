/** The civil calendar: day numbers counted from 1970-01-01. */
module Gregorian {

  datatype Date = Date(year: int, month: int, day: int)

  /** C++ integer division, which truncates toward zero. */
  function TruncDiv(a: int, b: int): int
    requires 0 < b
  {
    if a >= 0 then a / b else -((-a) / b)
  }

  /** Whole eras, rounded down: a truncating division whose dividend is shifted first when it is negative. */
  function EraOf(a: int, len: int): int
    requires 0 < len
  {
    TruncDiv(if a >= 0 then a else a - (len - 1), len)
  }

  lemma EraFloors(a: int, len: int)
    requires 0 < len
    ensures EraOf(a, len) == a / len
    ensures 0 <= a - EraOf(a, len) * len < len
  {
    if a < 0 {
      var q := (-a + len - 1) / len;
      assert EraOf(a, len) == -q;
      var r := (-a + len - 1) - q * len;
      assert 0 <= r < len;
      assert a == (-q) * len + (len - 1 - r);
      FloorUnique(a, len, -q, len - 1 - r);
    } else {
      FloorUnique(a, len, a / len, a % len);
    }
  }

  lemma FloorUnique(a: int, len: int, q: int, r: int)
    requires 0 <= r < len && a == q * len + r
    ensures a / len == q
  {
    if a / len < q {
      MulStep(a / len + 1, q, len);
    } else if a / len > q {
      MulStep(q + 1, a / len, len);
    }
  }

  lemma MulStep(x: int, y: int, len: int)
    requires x <= y && 0 < len
    ensures x * len <= y * len
  {}

  // ---- the calendar rules

  predicate IsLeap(y: int) { y % 4 == 0 && (y % 100 != 0 || y % 400 == 0) }

  function LastDay(y: int, m: int): int {
    if m == 2 then (if IsLeap(y) then 29 else 28)
    else if m == 4 || m == 6 || m == 9 || m == 11 then 30
    else 31
  }

  predicate Ok(d: Date) { 1 <= d.month <= 12 && 1 <= d.day <= LastDay(d.year, d.month) }

  predicate Before(a: Date, b: Date) {
    a.year < b.year || (a.year == b.year && (a.month < b.month || (a.month == b.month && a.day < b.day)))
  }

  /** The day after, by the rules alone. */
  function NextDay(d: Date): Date {
    if d.day < LastDay(d.year, d.month) then d.(day := d.day + 1)
    else if d.month < 12 then Date(d.year, d.month + 1, 1)
    else Date(d.year + 1, 1, 1)
  }

  // ---- the branch-free algorithms

  function ToDays(date: Date): int {
    var y := date.year - (if date.month <= 2 then 1 else 0);
    var era := EraOf(y, 400);
    var yoe := y - era * 400;
    var doy := (153 * (if date.month > 2 then date.month - 3 else date.month + 9) + 2) / 5 + date.day - 1;
    var doe := yoe * 365 + yoe / 4 - yoe / 100 + doy;
    era * 146097 + doe - 719468
  }

  function FromDays(days: int): Date {
    var z := days + 719468;
    var era := EraOf(z, 146097);
    var doe := z - era * 146097;
    var yoe := YearOfEra(doe);
    var y := yoe + era * 400;
    var doy := doe - (365 * yoe + yoe / 4 - yoe / 100);
    var mp := (5 * doy + 2) / 153;
    var d := doy - (153 * mp + 2) / 5 + 1;
    var m := if mp < 10 then mp + 3 else mp - 9;
    Date(y + (if m <= 2 then 1 else 0), m, d)
  }

  function YearOfEra(doe: int): int {
    (doe - doe / 1460 + doe / 36524 - doe / 146096) / 365
  }

  // ---- years of an era

  function YearStart(yoe: int): int { 365 * yoe + yoe / 4 - yoe / 100 }

  /** Days in the year of an era that starts in March. */
  function YearLength(yoe: int): int {
    if (yoe + 1) % 4 == 0 && ((yoe + 1) % 100 != 0 || (yoe + 1) % 400 == 0) then 366 else 365
  }

  lemma YearStarts(yoe: int)
    requires 0 <= yoe < 400
    ensures YearStart(yoe) + YearLength(yoe) == if yoe == 399 then 146097 else YearStart(yoe + 1)
  {}

  lemma {:induction false} YearStartMonotone(a: int, b: int)
    requires 0 <= a < b < 400
    ensures YearStart(a) + YearLength(a) <= YearStart(b)
  {
    YearStarts(a);
    if a + 1 < b {
      YearStartMonotone(a, b - 1);
      YearStarts(b - 1);
    }
  }

  /** The division chain lands in the year that contains the day. */
  lemma YearOfEraBounds(doe: int)
    requires 0 <= doe < 146097
    ensures 0 <= YearOfEra(doe) < 400
    ensures YearStart(YearOfEra(doe)) <= doe < YearStart(YearOfEra(doe)) + YearLength(YearOfEra(doe))
  {
    var c := if doe == 146096 then 3 else doe / 36524;
    var r := doe - 36524 * c;
    var q := if r == 36524 then 24 else r / 1461;
    var s := r - 1461 * q;
    CenturySplit(doe, c, q, s);
  }

  lemma CenturySplit(doe: int, c: int, q: int, s: int)
    requires doe == 36524 * c + 1461 * q + s
    requires 0 <= c <= 3 && 0 <= q <= 24 && 0 <= s <= 1460
    requires q == 24 ==> s <= (if c == 3 then 1460 else 1459)
    ensures 0 <= YearOfEra(doe) < 400
    ensures YearStart(YearOfEra(doe)) <= doe < YearStart(YearOfEra(doe)) + YearLength(YearOfEra(doe))
  {
    var y := if s == 1460 then 3 else s / 365;
    var e := if 24 * c + q + s >= 1460 then 1 else 0;
    assert doe / 1460 == 25 * c + q + e;
    assert doe / 36524 == if doe == 146096 then 4 else c;
    assert doe / 146096 == if doe == 146096 then 1 else 0;
    var yoe := 100 * c + 4 * q + y;
    assert YearOfEra(doe) == yoe;
    assert yoe / 4 == 25 * c + q && yoe / 100 == c;
    assert YearStart(yoe) == 36524 * c + 1461 * q + 365 * y;
  }

  // ---- months of a year that starts in March

  function MonthStart(mp: int): int { (153 * mp + 2) / 5 }

  function MonthLength(mp: int, yearLength: int): int {
    if mp == 11 then yearLength - 337
    else if mp == 1 || mp == 3 || mp == 6 || mp == 8 then 30
    else 31
  }

  lemma MonthStarts(mp: int, yearLength: int)
    requires 0 <= mp < 12
    ensures MonthStart(mp) + MonthLength(mp, yearLength) == if mp == 11 then yearLength else MonthStart(mp + 1)
  {}

  lemma MonthOfYear(doy: int, yearLength: int)
    requires 0 <= doy < yearLength && 365 <= yearLength <= 366
    ensures var mp := (5 * doy + 2) / 153;
      0 <= mp < 12 && MonthStart(mp) <= doy < MonthStart(mp) + MonthLength(mp, yearLength)
  {}

  lemma MonthUnique(doy: int, mp: int, yearLength: int)
    requires 0 <= mp < 12 && 365 <= yearLength <= 366
    requires MonthStart(mp) <= doy < MonthStart(mp) + MonthLength(mp, yearLength)
    ensures (5 * doy + 2) / 153 == mp && 0 <= doy < yearLength
  {}

  // ---- a date in era coordinates

  /** Civil year `400 * era + yoe`, counted from March; month `mp` of it; day `d` from 1. */
  function Civil(era: int, yoe: int, mp: int, d: int): Date {
    var m := if mp < 10 then mp + 3 else mp - 9;
    Date(yoe + era * 400 + (if m <= 2 then 1 else 0), m, d)
  }

  lemma SameRemainder(k: int, q: int, n: int)
    requires 0 < n
    ensures (k + q * n) % n == k % n
  {
    FloorUnique(k + q * n, n, k / n + q, k % n);
  }

  lemma LeapOfEra(era: int, yoe: int)
    requires 0 <= yoe < 400
    ensures IsLeap(yoe + era * 400 + 1) <==> YearLength(yoe) == 366
  {
    var k := yoe + 1;
    SameRemainder(k, era * 100, 4);
    SameRemainder(k, era * 4, 100);
    SameRemainder(k, era, 400);
  }

  lemma CivilOk(era: int, yoe: int, mp: int, d: int)
    requires 0 <= yoe < 400 && 0 <= mp < 12
    ensures LastDay(Civil(era, yoe, mp, d).year, Civil(era, yoe, mp, d).month) == MonthLength(mp, YearLength(yoe))
  {
    LeapOfEra(era, yoe);
  }

  lemma CivilToDays(era: int, yoe: int, mp: int, d: int)
    requires 0 <= yoe < 400 && 0 <= mp < 12
    ensures ToDays(Civil(era, yoe, mp, d)) == era * 146097 + YearStart(yoe) + MonthStart(mp) + d - 1 - 719468
  {
    var y := yoe + era * 400;
    EraFloors(y, 400);
    FloorUnique(y, 400, era, yoe);
  }

  /** Every date with a valid month has era coordinates. */
  lemma Coordinates(date: Date) returns (era: int, yoe: int, mp: int)
    requires 1 <= date.month <= 12
    ensures 0 <= yoe < 400 && 0 <= mp < 12
    ensures date == Civil(era, yoe, mp, date.day)
  {
    var y := date.year - (if date.month <= 2 then 1 else 0);
    era, yoe := y / 400, y % 400;
    mp := if date.month > 2 then date.month - 3 else date.month + 9;
  }

  lemma DayOfEra(era: int, yoe: int, mp: int, d: int)
    requires 0 <= yoe < 400 && 0 <= mp < 12 && 1 <= d <= MonthLength(mp, YearLength(yoe))
    ensures var doe := YearStart(yoe) + MonthStart(mp) + d - 1;
      && 0 <= doe < 146097 && YearOfEra(doe) == yoe
      && (5 * (doe - YearStart(yoe)) + 2) / 153 == mp
      && EraOf(era * 146097 + doe, 146097) == era
  {
    var doe := YearStart(yoe) + MonthStart(mp) + d - 1;
    MonthUnique(doe - YearStart(yoe), mp, YearLength(yoe));
    YearStarts(yoe);
    if yoe < 399 {
      YearStartMonotone(yoe, 399);
      YearStarts(399);
    }
    YearOfEraBounds(doe);
    var got := YearOfEra(doe);
    if got < yoe {
      YearStartMonotone(got, yoe);
    } else if yoe < got {
      YearStartMonotone(yoe, got);
    }
    EraFloors(era * 146097 + doe, 146097);
    FloorUnique(era * 146097 + doe, 146097, era, doe);
  }

  // ---- the calendar theorems

  /** A valid date survives the trip through its day number. */
  lemma DateRoundTrip(date: Date)
    requires Ok(date)
    ensures FromDays(ToDays(date)) == date
  {
    hide ToDays, EraOf, YearOfEra, YearLength, LastDay, MonthLength;
    var era, yoe, mp := Coordinates(date);
    CivilOk(era, yoe, mp, date.day);
    CivilToDays(era, yoe, mp, date.day);
    DayOfEra(era, yoe, mp, date.day);
  }

  /** Every day number names a valid date and comes back. */
  lemma DaysRoundTrip(z: int)
    ensures Ok(FromDays(z)) && ToDays(FromDays(z)) == z
  {
    hide ToDays, EraOf, YearOfEra, LastDay, MonthLength;
    var era := EraOf(z + 719468, 146097);
    EraFloors(z + 719468, 146097);
    var doe := z + 719468 - era * 146097;
    YearOfEraBounds(doe);
    var yoe := YearOfEra(doe);
    var doy := doe - YearStart(yoe);
    MonthOfYear(doy, YearLength(yoe));
    var mp := (5 * doy + 2) / 153;
    var d := doy - MonthStart(mp) + 1;
    assert FromDays(z) == Civil(era, yoe, mp, d);
    CivilOk(era, yoe, mp, d);
    CivilToDays(era, yoe, mp, d);
  }

  lemma Epoch()
    ensures ToDays(Date(1970, 1, 1)) == 0
  {}

  /** One day later by the calendar rules is one more in the day count. */
  lemma NextDayCounts(date: Date)
    requires Ok(date)
    ensures Ok(NextDay(date)) && ToDays(NextDay(date)) == ToDays(date) + 1
  {
    hide ToDays, EraOf, YearLength;
    var era, yoe, mp := Coordinates(date);
    var d := date.day;
    CivilOk(era, yoe, mp, d);
    CivilToDays(era, yoe, mp, d);
    if d < LastDay(date.year, date.month) {
      CivilToDays(era, yoe, mp, d + 1);
    } else {
      MonthStarts(mp, YearLength(yoe));
      if mp < 11 {
        CivilToDays(era, yoe, mp + 1, 1);
      } else {
        YearStarts(yoe);
        if yoe < 399 {
          CivilToDays(era, yoe + 1, 0, 1);
        } else {
          CivilToDays(era + 1, 0, 0, 1);
        }
      }
    }
  }

  lemma MonthOrder(mp: int, mp': int, yearLength: int)
    requires 0 <= mp < mp' < 12 && 365 <= yearLength <= 366
    ensures MonthStart(mp) + MonthLength(mp, yearLength) <= MonthStart(mp')
  {}

  lemma EarlierCounts(a: Date, b: Date)
    requires Ok(a) && Ok(b) && Before(a, b)
    ensures ToDays(a) < ToDays(b)
  {
    hide ToDays, EraOf, YearOfEra, IsLeap, LastDay, YearStart;
    var ea, ya, ma := Coordinates(a);
    var eb, yb, mb := Coordinates(b);
    CivilOk(ea, ya, ma, a.day);
    CivilOk(eb, yb, mb, b.day);
    CivilToDays(ea, ya, ma, a.day);
    CivilToDays(eb, yb, mb, b.day);
    DayOfEra(ea, ya, ma, a.day);
    DayOfEra(eb, yb, mb, b.day);
    assert ea <= eb;
    if ea == eb {
      assert ya <= yb;
      if ya == yb {
        if ma < mb {
          MonthOrder(ma, mb, YearLength(ya));
        }
      } else {
        MonthUnique(MonthStart(ma) + a.day - 1, ma, YearLength(ya));
        YearStartMonotone(ya, yb);
      }
    }
  }

  /** Day numbers are ordered exactly as dates are. */
  lemma DaysOrderDates(a: Date, b: Date)
    requires Ok(a) && Ok(b)
    ensures Before(a, b) <==> ToDays(a) < ToDays(b)
  {
    if Before(a, b) {
      EarlierCounts(a, b);
    } else if a != b {
      EarlierCounts(b, a);
    }
  }
}
