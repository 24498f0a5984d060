/** `doctor.rs`: the closed-form Gregorian calendar behind the kernel-age check,
    against a calendar that counts leap years one by one.
 */
module Calendar {
  import opened Wrappers

  datatype Date = Date(year: int, month: int, day: int)

  // --- The reference calendar -------------------------------------------------

  predicate Leap(y: int) { (y % 4 == 0 && y % 100 != 0) || y % 400 == 0 }

  function DaysIn(y: int, m: int): int {
    if m in {1, 3, 5, 7, 8, 10, 12} then 31
    else if m in {4, 6, 9, 11} then 30
    else if Leap(y) then 29
    else 28
  }

  function YearLength(y: int): int { if Leap(y) then 366 else 365 }

  predicate Valid(d: Date) { 1 <= d.month <= 12 && 1 <= d.day <= DaysIn(d.year, d.month) }

  /** Days from 1 January 1970 to 1 January of `y`, a year at a time. */
  function YearStart(y: int): int
    decreases if y >= 1970 then y - 1970 else 1970 - y
  {
    if y == 1970 then 0
    else if y > 1970 then YearStart(y - 1) + YearLength(y - 1)
    else YearStart(y + 1) - YearLength(y)
  }

  /** Days from 1 January to the first of month `m`. */
  function MonthStart(y: int, m: int): int
    requires 1 <= m <= 12
  {
    if m == 1 then 0 else MonthStart(y, m - 1) + DaysIn(y, m - 1)
  }

  function DayNumber(d: Date): int
    requires Valid(d)
  {
    YearStart(d.year) + MonthStart(d.year, d.month) + d.day - 1
  }

  predicate Earlier(a: Date, b: Date) {
    a.year < b.year || (a.year == b.year && (a.month < b.month || (a.month == b.month && a.day < b.day)))
  }

  // --- civil_from_unix --------------------------------------------------------

  const SECONDS_PER_DAY := 86_400

  /** `x as i32`. */
  function AsI32(x: int): int { (x + 0x8000_0000) % 0x1_0000_0000 - 0x8000_0000 }

  /** The date before its year is cut to 32 bits. */
  function Civil(secs: int): Date {
    var days := secs / SECONDS_PER_DAY + 719_468;
    var era := days / 146_097;
    var doe := days % 146_097;
    var yoe := (doe - doe / 1460 + doe / 36_524 - doe / 146_096) / 365;
    var doy := doe - (365 * yoe + yoe / 4 - yoe / 100);
    var mp := (5 * doy + 2) / 153;
    var day := doy - (153 * mp + 2) / 5 + 1;
    var month := if mp < 10 then mp + 3 else mp - 9;
    Date(yoe + era * 400 + (if month <= 2 then 1 else 0), month, day)
  }

  function CivilFromUnix(secs: int): Date {
    var d := Civil(secs);
    d.(year := AsI32(d.year))
  }

  // --- Year lengths in closed form --------------------------------------------

  lemma DivStep(x: int)
    ensures x / 4 == (x - 1) / 4 + (if x % 4 == 0 then 1 else 0)
    ensures x / 100 == (x - 1) / 100 + (if x % 100 == 0 then 1 else 0)
    ensures x / 400 == (x - 1) / 400 + (if x % 400 == 0 then 1 else 0)
    ensures (x % 400 == 0 ==> x % 100 == 0) && (x % 100 == 0 ==> x % 4 == 0)
  {
    Div4(x);
    Div100(x);
    Div400(x);
  }

  lemma Div4(x: int)
    ensures x / 4 == (x - 1) / 4 + (if x % 4 == 0 then 1 else 0)
  {}

  lemma Div100(x: int)
    ensures x / 100 == (x - 1) / 100 + (if x % 100 == 0 then 1 else 0)
    ensures x % 100 == 0 ==> x % 4 == 0
  {
    assert x == 100 * (x / 100) + x % 100;
    assert x % 100 == 0 ==> x == 4 * (25 * (x / 100));
  }

  lemma Div400(x: int)
    ensures x / 400 == (x - 1) / 400 + (if x % 400 == 0 then 1 else 0)
    ensures x % 400 == 0 ==> x % 100 == 0
  {
    assert x == 400 * (x / 400) + x % 400;
    assert x % 400 == 0 ==> x == 100 * (4 * (x / 400));
  }

  lemma {:induction false} YearStartClosed(y: int)
    ensures YearStart(y) == 365 * (y - 1970) + ((y - 1) / 4 - 492) - ((y - 1) / 100 - 19) + ((y - 1) / 400 - 4)
    decreases if y >= 1970 then y - 1970 else 1970 - y
  {
    if y > 1970 {
      YearStartClosed(y - 1);
      DivStep(y - 1);
    } else if y < 1970 {
      YearStartClosed(y + 1);
      DivStep(y);
    }
  }

  lemma MonthsInOrder(y: int)
    ensures MonthStart(y, 1) == 0 && MonthStart(y, 2) == 31 && MonthStart(y, 3) == YearLength(y) - 306
    ensures MonthStart(y, 12) == YearLength(y) - 31
    ensures forall mp | 0 <= mp <= 9 :: MonthStart(y, mp + 3) == YearLength(y) - 306 + (153 * mp + 2) / 5
  {
    assert MonthStart(y, 4) == MonthStart(y, 3) + 31;
    assert MonthStart(y, 5) == MonthStart(y, 4) + 30;
    assert MonthStart(y, 6) == MonthStart(y, 5) + 31;
    assert MonthStart(y, 7) == MonthStart(y, 6) + 30;
    assert MonthStart(y, 8) == MonthStart(y, 7) + 31;
    assert MonthStart(y, 9) == MonthStart(y, 8) + 31;
    assert MonthStart(y, 10) == MonthStart(y, 9) + 30;
    assert MonthStart(y, 11) == MonthStart(y, 10) + 31;
    assert MonthStart(y, 12) == MonthStart(y, 11) + 30;
  }

  // --- Correctness ------------------------------------------------------------

  /** A day of the era as century, four-year cycle, year and day of the year that
      begins on 1 March. */
  predicate EraDay(doe: int, c: int, q: int, t: int, r: int) {
    && 0 <= c <= 3 && 0 <= q <= 24 && 0 <= t <= 3 && 0 <= r <= 365
    && (r == 365 ==> t == 3 && (q < 24 || c == 3))
    && doe == 36_524 * c + 1461 * q + 365 * t + r
  }

  lemma SplitEra(doe: int) returns (c: int, q: int, t: int, r: int)
    requires 0 <= doe < 146_097
    ensures EraDay(doe, c, q, t, r)
  {
    c := if doe == 146_096 then 3 else doe / 36_524;
    var rest := doe - 36_524 * c;
    q := rest / 1461;
    var year := rest - 1461 * q;
    t := if year == 1460 then 3 else year / 365;
    r := year - 365 * t;
  }

  /** The closed form finds the year of the era. */
  lemma YearOfEra(doe: int, c: int, q: int, t: int, r: int)
    requires EraDay(doe, c, q, t, r)
    ensures (doe - doe / 1460 + doe / 36_524 - doe / 146_096) / 365 == 100 * c + 4 * q + t
  {
    var over := if 24 * c + q + 365 * t + r >= 1460 then 1 else 0;
    assert doe / 1460 == 25 * c + q + over;
    var last := if doe == 146_096 then 1 else 0;
    assert doe / 146_096 == last;
    assert doe / 36_524 == c + last;
  }

  /** The shifted month and its day, within a year that begins on 1 March. */
  lemma MonthOfYear(doy: int)
    requires 0 <= doy <= 365
    ensures var mp := (5 * doy + 2) / 153;
            var day := doy - (153 * mp + 2) / 5 + 1;
            && 0 <= mp <= 11 && 1 <= day
            && (mp <= 9 ==> day <= DaysIn(1, mp + 3))
            && (mp == 10 ==> day <= 31)
            && (mp == 11 ==> day <= 29 && (day == 29 <==> doy == 365))
  {
  }

  /** Where the year that begins on 1 March of `y` lies, and when it has a
      29 February. */
  lemma MarchYear(era: int, c: int, q: int, t: int, r: int)
    requires 0 <= c <= 3 && 0 <= q <= 24 && 0 <= t <= 3
    ensures var y := 100 * c + 4 * q + t + era * 400;
            && YearStart(y + 1) - 306 == 146_097 * era + 36_524 * c + 1461 * q + 365 * t - 719_468
            && YearStart(y + 1) == YearStart(y) + YearLength(y)
            && (t == 3 && (q < 24 || c == 3) ==> Leap(y + 1))
  {
    var y := 100 * c + 4 * q + t + era * 400;
    YearStartClosed(y + 1);
    YearStartClosed(y);
    DivStep(y);
    assert y / 4 == 25 * c + q + 100 * era;
    assert y / 100 == c + 4 * era;
    assert y / 400 == era;
    if t == 3 {
      assert y + 1 == 4 * (25 * c + q + 1 + 100 * era);
      if q < 24 {
        assert y + 1 == 100 * (c + 4 * era) + 4 * (q + 1);
      } else if c == 3 {
        assert y + 1 == 400 * (era + 1);
      }
    }
  }

  /** The closed form, read through the split of the day. */
  lemma CivilSplit(secs: int) returns (era: int, c: int, q: int, t: int, r: int)
    ensures EraDay((secs / SECONDS_PER_DAY + 719_468) % 146_097, c, q, t, r)
    ensures secs / SECONDS_PER_DAY + 719_468 == 146_097 * era + 36_524 * c + 1461 * q + 365 * t + r
    ensures var mp := (5 * r + 2) / 153;
            var y := 100 * c + 4 * q + t + era * 400;
            Civil(secs) == Date(if mp < 10 then y else y + 1, if mp < 10 then mp + 3 else mp - 9,
                                r - (153 * mp + 2) / 5 + 1)
  {
    var days := secs / SECONDS_PER_DAY + 719_468;
    era := days / 146_097;
    var doe := days % 146_097;
    c, q, t, r := SplitEra(doe);
    YearOfEra(doe, c, q, t, r);
    YearDays(c, q, t);
    MonthOfYear(r);
    hide EraDay;
  }

  lemma YearDays(c: int, q: int, t: int)
    requires 0 <= c <= 3 && 0 <= q <= 24 && 0 <= t <= 3
    ensures var yoe := 100 * c + 4 * q + t; 365 * yoe + yoe / 4 - yoe / 100 == 36_524 * c + 1461 * q + 365 * t
  {
    var yoe := 100 * c + 4 * q + t;
    assert yoe / 4 == 25 * c + q && yoe / 100 == c;
  }

  /** Every second count gives a date of the calendar, and the one whose day
      number is the number of whole days since 1 January 1970. */
  lemma CivilIsExact(secs: int)
    ensures Valid(Civil(secs)) && DayNumber(Civil(secs)) == secs / SECONDS_PER_DAY
  {
    var era, c, q, t, r := CivilSplit(secs);
    hide Civil;
    MonthOfYear(r);
    var mp := (5 * r + 2) / 153;
    var y := 100 * c + 4 * q + t + era * 400;
    MarchYear(era, c, q, t, r);
    MonthsInOrder(if mp < 10 then y else y + 1);
  }

  // --- A bijection, in order --------------------------------------------------

  lemma {:induction false} MonthStartGrows(y: int, m: int, n: int)
    requires 1 <= m < n <= 12
    ensures MonthStart(y, m) + DaysIn(y, m) <= MonthStart(y, n)
    decreases n
  {
    if m < n - 1 { MonthStartGrows(y, m, n - 1); }
  }

  lemma {:induction false} YearStartGrows(y: int, z: int)
    requires y < z
    ensures YearStart(y) + YearLength(y) <= YearStart(z)
    decreases z - y
  {
    YearStartNext(y);
    if y + 1 < z { YearStartGrows(y + 1, z); }
  }

  lemma YearStartNext(y: int)
    ensures YearStart(y + 1) == YearStart(y) + YearLength(y)
  {
    YearStartClosed(y);
    YearStartClosed(y + 1);
    DivStep(y);
  }

  lemma WithinYear(d: Date)
    requires Valid(d)
    ensures YearStart(d.year) <= DayNumber(d) < YearStart(d.year) + YearLength(d.year)
  {
    MonthsInOrder(d.year);
    if d.month > 1 { MonthStartGrows(d.year, 1, d.month); }
    if d.month < 12 { MonthStartGrows(d.year, d.month, 12); }
  }

  lemma EarlierDays(a: Date, b: Date)
    requires Valid(a) && Valid(b) && Earlier(a, b)
    ensures DayNumber(a) < DayNumber(b)
  {
    if a.year < b.year {
      YearStartGrows(a.year, b.year);
      WithinYear(a);
      WithinYear(b);
    } else if a.month < b.month {
      MonthStartGrows(a.year, a.month, b.month);
      assert a.day <= DaysIn(a.year, a.month);
    }
  }

  /** Day numbers and dates of the calendar are the same order. */
  lemma SameOrder(a: Date, b: Date)
    requires Valid(a) && Valid(b)
    ensures Earlier(a, b) <==> DayNumber(a) < DayNumber(b)
    ensures a == b <==> DayNumber(a) == DayNumber(b)
  {
    if Earlier(a, b) { EarlierDays(a, b); }
    if Earlier(b, a) { EarlierDays(b, a); }
    hide DayNumber;
  }

  /** Every date of the calendar is reached, from any second of its day. */
  lemma EveryDateIsReached(d: Date, second: int)
    requires Valid(d) && 0 <= second < SECONDS_PER_DAY
    ensures Civil(DayNumber(d) * SECONDS_PER_DAY + second) == d
  {
    var secs := DayNumber(d) * SECONDS_PER_DAY + second;
    assert secs / SECONDS_PER_DAY == DayNumber(d);
    CivilIsExact(secs);
    SameOrder(Civil(secs), d);
  }

  lemma CivilIsMonotone(a: int, b: int)
    requires a <= b
    ensures Civil(a) == Civil(b) || Earlier(Civil(a), Civil(b))
    ensures Civil(a) == Civil(b) <==> a / SECONDS_PER_DAY == b / SECONDS_PER_DAY
  {
    CivilIsExact(a);
    CivilIsExact(b);
    SameOrder(Civil(a), Civil(b));
    assert a / SECONDS_PER_DAY <= b / SECONDS_PER_DAY;
  }

  /** The seconds of the years that fit 32 bits. */
  predicate YearFits(secs: int) {
    YearStart(-0x8000_0000) <= secs / SECONDS_PER_DAY < YearStart(0x8000_0000)
  }

  /** The cut to 32 bits leaves the date alone exactly for those seconds, and otherwise
      keeps the year modulo 2^32, and the month and the day. */
  lemma CutIsExact(secs: int)
    ensures CivilFromUnix(secs) == Civil(secs) <==> YearFits(secs)
    ensures var cut, d := CivilFromUnix(secs), Civil(secs);
            && cut.month == d.month && cut.day == d.day
            && -0x8000_0000 <= cut.year < 0x8000_0000 && (cut.year - d.year) % 0x1_0000_0000 == 0
  {
    CivilIsExact(secs);
    FitsByYear(Civil(secs));
    CutYear(Civil(secs).year);
    hide Civil, YearStart, DayNumber, AsI32;
  }

  lemma CutYear(y: int)
    ensures AsI32(y) == y <==> -0x8000_0000 <= y < 0x8000_0000
    ensures -0x8000_0000 <= AsI32(y) < 0x8000_0000 && (AsI32(y) - y) % 0x1_0000_0000 == 0
  {
    var x := y + 0x8000_0000;
    assert AsI32(y) - y == x % 0x1_0000_0000 - x == -0x1_0000_0000 * (x / 0x1_0000_0000);
  }

  lemma FitsByYear(d: Date)
    requires Valid(d)
    ensures -0x8000_0000 <= d.year < 0x8000_0000 <==>
              YearStart(-0x8000_0000) <= DayNumber(d) < YearStart(0x8000_0000)
  {
    ReachesYear(d, -0x8000_0000);
    ReachesYear(d, 0x8000_0000);
    hide YearStart, DayNumber;
  }

  lemma ReachesYear(d: Date, y: int)
    requires Valid(d)
    ensures y <= d.year <==> YearStart(y) <= DayNumber(d)
  {
    WithinYear(d);
    if d.year < y { YearStartGrows(d.year, y); } else if y < d.year { YearStartGrows(y, d.year); }
    hide DayNumber, YearStart;
  }

  // --- kernel_age -------------------------------------------------------------

  datatype Series = Series(major: int, minor: int)
  datatype Release = Release(series: Series, year: int, month: int)
  datatype KernelAge = KernelAge(months: int, exact: bool, lts: bool)

  const SERIES_RELEASED: seq<Release> := [
    Release(Series(5, 4), 2019, 11),
    Release(Series(5, 10), 2020, 12),
    Release(Series(5, 15), 2021, 10),
    Release(Series(6, 0), 2022, 10),
    Release(Series(6, 1), 2022, 12),
    Release(Series(6, 2), 2023, 2),
    Release(Series(6, 3), 2023, 4),
    Release(Series(6, 4), 2023, 6),
    Release(Series(6, 5), 2023, 8),
    Release(Series(6, 6), 2023, 10),
    Release(Series(6, 7), 2024, 1),
    Release(Series(6, 8), 2024, 3),
    Release(Series(6, 9), 2024, 5),
    Release(Series(6, 10), 2024, 7),
    Release(Series(6, 11), 2024, 9),
    Release(Series(6, 12), 2024, 11),
    Release(Series(6, 13), 2025, 1),
    Release(Series(6, 14), 2025, 3)
  ]

  const LTS_SERIES: seq<Series> := [Series(5, 4), Series(5, 10), Series(5, 15), Series(6, 1), Series(6, 6), Series(6, 12)]

  predicate AtMost(a: Series, b: Series) { a.major < b.major || (a.major == b.major && a.minor <= b.minor) }

  /** `iter().rev().find`: how many rows are left when the first fitting one, from
      the newest, is the last. */
  function NewestAtMost(rows: seq<Release>, v: Series): (n: nat)
    ensures n <= |rows|
    ensures n > 0 ==> AtMost(rows[n - 1].series, v)
    ensures forall i | n <= i < |rows| :: !AtMost(rows[i].series, v)
  {
    if rows == [] then 0
    else if AtMost(rows[|rows| - 1].series, v) then |rows|
    else NewestAtMost(rows[..|rows| - 1], v)
  }

  /** The newest row at or below `v`, or the oldest row of all. */
  function RowFor(v: Series): Release {
    var n := NewestAtMost(SERIES_RELEASED, v);
    if n > 0 then SERIES_RELEASED[n - 1] else SERIES_RELEASED[0]
  }

  /** `None` before 1970, and for a series newer than the table. */
  function AgeOf(v: Series, secs: int): Option<KernelAge> {
    if secs < 0 || !AtMost(v, SERIES_RELEASED[|SERIES_RELEASED| - 1].series) then None
    else
      var now := CivilFromUnix(secs);
      var row := RowFor(v);
      Some(KernelAge((now.year - row.year) * 12 + (now.month - row.month), row.series == v, v in LTS_SERIES))
  }

  function MonthIndex(year: int, month: int): int { year * 12 + month }

  /** The month that is `n` after this one, or before it, a month at a time. */
  function MonthsOn(year: int, month: int, n: int): (int, int)
    decreases if n < 0 then -n else n
  {
    if n == 0 then (year, month)
    else if n > 0 then (if month == 12 then MonthsOn(year + 1, 1, n - 1) else MonthsOn(year, month + 1, n - 1))
    else if month == 1 then MonthsOn(year - 1, 12, n + 1)
    else MonthsOn(year, month - 1, n + 1)
  }

  lemma {:induction false} MonthsOnClosed(year: int, month: int, toYear: int, toMonth: int)
    requires 1 <= month <= 12 && 1 <= toMonth <= 12
    ensures MonthsOn(year, month, (toYear - year) * 12 + (toMonth - month)) == (toYear, toMonth)
    decreases if (toYear - year) * 12 + (toMonth - month) < 0 then -((toYear - year) * 12 + (toMonth - month))
              else (toYear - year) * 12 + (toMonth - month)
  {
    var n := (toYear - year) * 12 + (toMonth - month);
    if n > 0 {
      if month == 12 { MonthsOnClosed(year + 1, 1, toYear, toMonth); } else { MonthsOnClosed(year, month + 1, toYear, toMonth); }
    } else if n < 0 {
      if month == 1 { MonthsOnClosed(year - 1, 12, toYear, toMonth); } else { MonthsOnClosed(year, month - 1, toYear, toMonth); }
    }
  }

  /** What an age says, on the day with this date: none for a series above 6.14; and else
      how many months after its release, or after that of the newest series below it, or of
      the oldest of all, the day is. It is exact for the series that are in the table. */
  lemma AgeIs(v: Series, secs: int, today: Date)
    requires 0 <= secs && YearFits(secs) && Valid(today) && DayNumber(today) == secs / 86_400
    ensures AgeOf(v, secs).None? <==> v.major > 6 || (v.major == 6 && v.minor > 14)
    ensures AgeOf(v, secs).Some? ==>
            var age := AgeOf(v, secs).value;
            && (age.exact <==> Listed(v))
            && (age.lts <==> v in {Series(5, 4), Series(5, 10), Series(5, 15), Series(6, 1), Series(6, 6), Series(6, 12)})
            && MonthsSince(v, age.months, today)
  {
    hide *;
    AgeParts(v, secs, today);
    LtsIs(v);
    ExactIs(v);
    MonthsCount(v, today);
  }

  /** The row of the newest series at or below `v`, or the first: `n` months after its
      release is the month of `today`. */
  ghost predicate MonthsSince(v: Series, months: int, today: Date) {
    forall n | 0 <= n < |SERIES_RELEASED| && (n == 0 || NotAbove(n, v)) && !(n + 1 < |SERIES_RELEASED| && NotAbove(n + 1, v)) ::
      MonthsOn(SERIES_RELEASED[n].year, SERIES_RELEASED[n].month, months) == (today.year, today.month)
  }

  lemma MonthsCount(v: Series, today: Date)
    requires Valid(today)
    ensures var row := RowFor(v); MonthsSince(v, (today.year - row.year) * 12 + (today.month - row.month), today)
  {
    var row := RowFor(v);
    forall n | 0 <= n < |SERIES_RELEASED| && (n == 0 || NotAbove(n, v)) && !(n + 1 < |SERIES_RELEASED| && NotAbove(n + 1, v))
      ensures SERIES_RELEASED[n] == row && 1 <= row.month <= 12
    {
      RowIs(v, n);
      MonthsAreInRange(n + 1);
    }
    if 1 <= row.month <= 12 { MonthsOnClosed(row.year, row.month, today.year, today.month); }
    hide SERIES_RELEASED, MonthsOn, RowFor, NotAbove;
  }

  lemma AgeParts(v: Series, secs: int, today: Date)
    requires 0 <= secs && YearFits(secs) && Valid(today) && DayNumber(today) == secs / 86_400
    ensures AgeOf(v, secs).None? <==> v.major > 6 || (v.major == 6 && v.minor > 14)
    ensures AgeOf(v, secs).Some? ==>
            var age, row := AgeOf(v, secs).value, RowFor(v);
            && age.months == (today.year - row.year) * 12 + (today.month - row.month)
            && age.exact == (row.series == v) && age.lts == (v in LTS_SERIES)
  {
    CutIsExact(secs);
    CivilIsExact(secs);
    SameOrder(Civil(secs), today);
    LastSeries();
    hide Civil, CivilFromUnix, LTS_SERIES, SERIES_RELEASED, RowFor, DayNumber, YearFits;
  }

  /** Row `n` is of a series at or below `v`. */
  predicate NotAbove(n: nat, v: Series)
    requires n < |SERIES_RELEASED|
  {
    var s := SERIES_RELEASED[n].series;
    s.major < v.major || (s.major == v.major && s.minor <= v.minor)
  }

  predicate Listed(v: Series) { exists i :: 0 <= i < |SERIES_RELEASED| && SERIES_RELEASED[i].series == v }

  lemma LastSeries()
    ensures |SERIES_RELEASED| == 18 && SERIES_RELEASED[17].series == Series(6, 14)
  {
  }

  lemma LtsIs(v: Series)
    ensures v in LTS_SERIES <==> v in {Series(5, 4), Series(5, 10), Series(5, 15), Series(6, 1), Series(6, 6), Series(6, 12)}
  {
    assert LTS_SERIES[0] == Series(5, 4) && LTS_SERIES[1] == Series(5, 10) && LTS_SERIES[2] == Series(5, 15);
    assert LTS_SERIES[3] == Series(6, 1) && LTS_SERIES[4] == Series(6, 6) && LTS_SERIES[5] == Series(6, 12);
  }

  lemma MonthsAreInRange(n: nat)
    requires n <= |SERIES_RELEASED|
    ensures n > 0 ==> 1 <= SERIES_RELEASED[n - 1].month <= 12
    ensures 1 <= SERIES_RELEASED[0].month <= 12
  {
  }

  lemma RowIs(v: Series, n: nat)
    requires n < |SERIES_RELEASED| && (n == 0 || NotAbove(n, v)) && !(n + 1 < |SERIES_RELEASED| && NotAbove(n + 1, v))
    ensures SERIES_RELEASED[n] == RowFor(v)
  {
    var m := NewestAtMost(SERIES_RELEASED, v);
    if n + 1 < m {
      TableInOrder(n + 1, m - 1);
    }
    hide SERIES_RELEASED, NewestAtMost;
    assert n > 0 ==> AtMost(SERIES_RELEASED[n].series, v);
  }

  lemma ExactIs(v: Series)
    ensures RowFor(v).series == v <==> Listed(v)
  {
    var m := NewestAtMost(SERIES_RELEASED, v);
    if i :| 0 <= i < |SERIES_RELEASED| && SERIES_RELEASED[i].series == v {
      TableInOrder(i, if m > 0 then m - 1 else i);
    }
    LastSeries();
    hide SERIES_RELEASED, NewestAtMost;
  }

  /** The table is sorted by series and by date of release alike. */
  lemma TableInOrder(i: nat, j: nat)
    requires i <= j < |SERIES_RELEASED|
    ensures AtMost(SERIES_RELEASED[i].series, SERIES_RELEASED[j].series)
    ensures MonthIndex(SERIES_RELEASED[i].year, SERIES_RELEASED[i].month) <=
            MonthIndex(SERIES_RELEASED[j].year, SERIES_RELEASED[j].month)
    decreases j
  {
    if i < j { TableInOrder(i, j - 1); }
  }

  /** A kernel only gets older, while the year fits 32 bits. */
  lemma AgeGrowsWithTime(v: Series, a: int, b: int)
    requires 0 <= a <= b && YearFits(b)
    ensures AgeOf(v, a).Some? <==> AgeOf(v, b).Some?
    ensures AgeOf(v, a).Some? ==> AgeOf(v, a).value.months <= AgeOf(v, b).value.months
  {
    BeforeThatFits(a, b);
    CutIsExact(a);
    CutIsExact(b);
    CivilIsMonotone(a, b);
    CivilIsExact(a);
    CivilIsExact(b);
    hide Civil, CivilFromUnix, SERIES_RELEASED, NewestAtMost;
  }

  lemma BeforeThatFits(a: int, b: int)
    requires 0 <= a <= b && YearFits(b)
    ensures YearFits(a)
  {
    YearStartGrows(-0x8000_0000, 1970);
    assert 0 <= a / SECONDS_PER_DAY <= b / SECONDS_PER_DAY;
  }

  /** A newer series is never older than an older one, and only the series
      newer than the whole table have no age. */
  lemma NewerSeriesIsYounger(v: Series, w: Series, secs: int)
    requires AtMost(v, w) && AgeOf(w, secs).Some?
    ensures AgeOf(v, secs).Some? && AgeOf(w, secs).value.months <= AgeOf(v, secs).value.months
  {
    RowsInOrder(v, w);
    hide SERIES_RELEASED, CivilFromUnix, RowFor;
  }

  lemma RowsInOrder(v: Series, w: Series)
    requires AtMost(v, w)
    ensures MonthIndex(RowFor(v).year, RowFor(v).month) <= MonthIndex(RowFor(w).year, RowFor(w).month)
  {
    var n, m := NewestAtMost(SERIES_RELEASED, v), NewestAtMost(SERIES_RELEASED, w);
    hide NewestAtMost, SERIES_RELEASED;
    if n > 0 {
      TableInOrder(n - 1, m - 1);
    } else if m > 0 {
      TableInOrder(0, m - 1);
    }
  }
}
