/** The C run-time library's gmtime_r: seconds since 1-JAN-1970 as a date of
    the proleptic Gregorian calendar.  The arithmetic is Howard Hinnant's
    civil_from_days, on eras of 400 years that start on 1 March; it is proved
    here equal to counting days one at a time from the epoch. */
module Calendar {
  import opened Numbers

  // C's division and remainder truncate toward zero.
  function CDiv(a: int, b: int): int
    requires b > 0
  {
    if a >= 0 then a / b else -((-a) / b)
  }

  function CMod(a: int, b: int): int
    requires b > 0
  {
    a - b * CDiv(a, b)
  }

  const INT_RANGE := 0x1_0000_0000

  // The conversion of a long to a 32-bit int.
  function ToInt(x: int): int {
    (x + INT_RANGE / 2) % INT_RANGE - INT_RANGE / 2
  }

  /** The fields of struct tm that gmtime_r computes. */
  datatype Tm = Tm(sec: int, min: int, hour: int, mday: int, mon: int, year: int, wday: int, yday: int)

  datatype Date = Date(y: int, m: int, d: int)

  // ---------------------------------------------------------------------
  // The code
  // ---------------------------------------------------------------------

  function Era(days: int): int {
    var z := days + 719468;
    CDiv(if z >= 0 then z else z - 146096, 146097)
  }

  function YearOfEra(doe: int): int {
    CDiv(doe - CDiv(doe, 1460) + CDiv(doe, 36524) - CDiv(doe, 146096), 365)
  }

  /** gmtime_r's arithmetic, on a count of days. */
  function Civil(days: int): Date {
    var era := Era(days);
    var doe := days + 719468 - era * 146097;
    var yoe := YearOfEra(doe);
    MarchDate(yoe + era * 400, doe - (365 * yoe + CDiv(yoe, 4) - CDiv(yoe, 100)))
  }

  // The day doy of a year that starts on 1 March, as a date.
  function MarchDate(year: int, doy: int): Date {
    var mp := CDiv(5 * doy + 2, 153);
    var d := doy - CDiv(153 * mp + 2, 5) + 1;
    var m := if mp < 10 then mp + 3 else mp - 9;
    Date(year + (if m <= 2 then 1 else 0), m, d)
  }

  const BEFORE: seq<int> := [0, 31, 59, 90, 120, 151, 181, 212, 243, 273, 304, 334]

  // before[] is only defined for months 1 to 12, which CivilValid shows m is.
  function YearDay(date: Date): int {
    var leap := (CMod(date.y, 4) == 0 && CMod(date.y, 100) != 0) || CMod(date.y, 400) == 0;
    (if 1 <= date.m <= 12 then BEFORE[date.m - 1] else 0) + date.d - 1 + (if leap && date.m > 2 then 1 else 0)
  }

  function Days(t: int): int {
    if CMod(t, 86400) < 0 then CDiv(t, 86400) - 1 else CDiv(t, 86400)
  }

  function Gmtime(t: int): Tm {
    var secs := if CMod(t, 86400) < 0 then CMod(t, 86400) + 86400 else CMod(t, 86400);
    var days := Days(t);
    var date := Civil(days);
    Tm(CMod(secs, 60), CMod(CDiv(secs, 60), 60), CDiv(secs, 3600),
       date.d, date.m - 1, ToInt(date.y - 1900), CMod(CMod(days, 7) + 11, 7), YearDay(date))
  }

  // ---------------------------------------------------------------------
  // The calendar
  // ---------------------------------------------------------------------

  predicate Leap(y: int) {
    y % 4 == 0 && (y % 100 != 0 || y % 400 == 0)
  }

  function MonthLength(y: int, m: int): int {
    if m == 2 then (if Leap(y) then 29 else 28)
    else if m in {4, 6, 9, 11} then 30
    else 31
  }

  predicate Valid(date: Date) {
    1 <= date.m <= 12 && 1 <= date.d <= MonthLength(date.y, date.m)
  }

  function Next(date: Date): Date {
    if date.d < MonthLength(date.y, date.m) then Date(date.y, date.m, date.d + 1)
    else if date.m < 12 then Date(date.y, date.m + 1, 1)
    else Date(date.y + 1, 1, 1)
  }

  function Previous(date: Date): Date {
    if date.d > 1 then Date(date.y, date.m, date.d - 1)
    else if date.m > 1 then Date(date.y, date.m - 1, MonthLength(date.y, date.m - 1))
    else Date(date.y - 1, 12, 31)
  }

  /** The date of day n, counted one day at a time from 1-JAN-1970. */
  function Counted(n: int): Date
    decreases if n < 0 then -n else n
  {
    if n == 0 then Date(1970, 1, 1)
    else if n > 0 then Next(Counted(n - 1))
    else Previous(Counted(n + 1))
  }

  /** Days of the year before month m. */
  function DaysBefore(y: int, m: int): int
    decreases m
  {
    if m <= 1 then 0 else DaysBefore(y, m - 1) + MonthLength(y, m - 1)
  }

  // ---------------------------------------------------------------------
  // Years of an era, which start on 1 March
  // ---------------------------------------------------------------------

  // The day of the era on which its year y starts.
  function YearStart(y: int): int {
    365 * y + y / 4 - y / 100
  }

  // Year y of an era holds the February of the calendar year after it.
  predicate LongYear(y: int) {
    Leap(y + 1)
  }

  function YearEnd(y: int): int {
    YearStart(y) + (if LongYear(y) then 366 else 365)
  }

  lemma YearEndIsNextStart(y: int)
    requires 0 <= y < 400
    ensures YearEnd(y) == if y == 399 then 146097 else YearStart(y + 1)
  {
  }

  // In terms of centuries, four-year cycles and years.
  lemma YearOfEraParts(c: int, b: int, a: int, k: int)
    requires 0 <= c < 4 && 0 <= b < 25 && 0 <= a < 4
    requires 0 <= k < 365 || (k == 365 && a == 3 && (b < 24 || c == 3))
    ensures YearOfEra(36524 * c + 1461 * b + 365 * a + k) == 100 * c + 4 * b + a
  {
    var doe := 36524 * c + 1461 * b + 365 * a + k;
    var over := if 24 * c + b + 365 * a + k >= 1460 then 1 else 0;
    assert doe == 1460 * (25 * c + b + over) + (24 * c + b + 365 * a + k - 1460 * over);
    assert doe / 1460 == 25 * c + b + over;
    assert doe / 36524 - doe / 146096 == c;
    assert doe - doe / 1460 + c == 365 * (100 * c + 4 * b + a) + (k - over);
  }

  lemma YearOfEraIs(doe: int, y: int)
    requires 0 <= y < 400 && YearStart(y) <= doe < YearEnd(y)
    ensures YearOfEra(doe) == y
  {
    var c, b, a := y / 100, y % 100 / 4, y % 4;
    assert y == 100 * c + 4 * b + a;
    YearOfEraParts(c, b, a, doe - YearStart(y));
  }

  // ---------------------------------------------------------------------
  // One day at a time
  // ---------------------------------------------------------------------

  // A day's place: its era, year of the era and day of that year.
  lemma Place(days: int) returns (era: int, y: int, doy: int)
    ensures 0 <= y < 400 && 0 <= doy < YearEnd(y) - YearStart(y)
    ensures days + 719468 == era * 146097 + YearStart(y) + doy
  {
    era := (days + 719468) / 146097;
    var doe := (days + 719468) % 146097;
    y := 0;
    while doe >= YearEnd(y)
      invariant 0 <= y < 400 && YearStart(y) <= doe
    {
      YearEndIsNextStart(y);
      y := y + 1;
    }
    doy := doe - YearStart(y);
  }

  lemma WithinEra(y: int, doy: int)
    requires 0 <= y < 400 && 0 <= doy < YearEnd(y) - YearStart(y)
    ensures 0 <= YearStart(y) + doy < 146097
    ensures YearStart(y) == 365 * y + CDiv(y, 4) - CDiv(y, 100)
  {
    YearEndIsNextStart(y);
  }

  lemma CivilAt(days: int, era: int, y: int, doy: int)
    requires 0 <= y < 400 && 0 <= doy < YearEnd(y) - YearStart(y)
    requires days + 719468 == era * 146097 + YearStart(y) + doy
    ensures Civil(days) == MarchDate(y + era * 400, doy)
  {
    hide MarchDate, Era, YearOfEra, YearStart, YearEnd, CDiv;
    WithinEra(y, doy);
    EraIs(days, era);
    YearOfEraIs(YearStart(y) + doy, y);
  }

  lemma EraIs(days: int, era: int)
    requires 0 <= days + 719468 - era * 146097 < 146097
    ensures Era(days) == era
  {
    var z := days + 719468;
    if z < 0 {
      assert 146096 - z == 146097 * (-era) + (146096 - (z - era * 146097));
    }
  }

  lemma LeapIsPeriodic(era: int, y: int)
    ensures Leap(y + era * 400) == Leap(y)
  {
    ModAddMultiple(y, era, 400);
    ModAddMultiple(y, 4 * era, 100);
    ModAddMultiple(y, 100 * era, 4);
  }

  lemma MarchDateSteps(year: int, doy: int)
    requires 0 <= doy < if Leap(year + 1) then 366 else 365
    ensures Valid(MarchDate(year, doy))
    ensures Next(MarchDate(year, doy)) ==
            if doy + 1 < (if Leap(year + 1) then 366 else 365) then MarchDate(year, doy + 1)
            else MarchDate(year + 1, 0)
  {
  }

  /** Every computed date is one of the calendar's, and the next day's is
      the date after it. */
  lemma CivilSteps(days: int)
    ensures Valid(Civil(days))
    ensures Civil(days + 1) == Next(Civil(days))
  {
    hide Civil, MarchDate;
    var era, y, doy := Place(days);
    CivilAt(days, era, y, doy);
    LeapIsPeriodic(era, y + 1);
    MarchDateSteps(y + era * 400, doy);
    YearEndIsNextStart(y);
    if doy + 1 < YearEnd(y) - YearStart(y) {
      CivilAt(days + 1, era, y, doy + 1);
    } else if y < 399 {
      CivilAt(days + 1, era, y + 1, 0);
    } else {
      CivilAt(days + 1, era + 1, 0, 0);
    }
  }

  lemma PreviousOfNext(date: Date)
    requires Valid(date)
    ensures Previous(Next(date)) == date
  {
  }

  /** gmtime_r's date of any day, before or after the epoch, is the one that
      counting days from 1-JAN-1970 reaches. */
  lemma {:induction false} CivilIsCounted(days: int)
    ensures Civil(days) == Counted(days) && Valid(Counted(days))
    decreases if days < 0 then -days else days
  {
    hide Civil;
    CivilSteps(days);
    if days == 0 {
      CivilAt(0, 4, 369, 306);
    } else if days > 0 {
      CivilIsCounted(days - 1);
      CivilSteps(days - 1);
    } else {
      CivilIsCounted(days + 1);
      PreviousOfNext(Civil(days));
    }
  }

  lemma SameMultiples(y: int, b: int)
    requires b == 4 || b == 100 || b == 400
    ensures CMod(y, b) == 0 <==> y % b == 0
  {
    var q := CDiv(y, b);
    assert y == b * q + CMod(y, b) && -b < CMod(y, b) < b;
    ModAddMultiple(CMod(y, b), q, b);
  }

  lemma SameLeapYears(y: int)
    ensures Leap(y) <==> ((CMod(y, 4) == 0 && CMod(y, 100) != 0) || CMod(y, 400) == 0)
  {
    SameMultiples(y, 4);
    SameMultiples(y, 100);
    SameMultiples(y, 400);
    hide CMod;
    assert y % 400 == 0 ==> y % 4 == 0 by { assert y == 400 * (y / 400) + y % 400; }
  }

  lemma DaysBeforeMonths(y: int)
    ensures forall m | 1 <= m <= 12 :: DaysBefore(y, m) == BEFORE[m - 1] + if Leap(y) && m > 2 then 1 else 0
  {
    hide Leap;
    assert DaysBefore(y, 3) == BEFORE[2] + if Leap(y) then 1 else 0;
    assert DaysBefore(y, 5) == DaysBefore(y, 3) + 61;
    assert DaysBefore(y, 7) == DaysBefore(y, 5) + 61;
    assert DaysBefore(y, 9) == DaysBefore(y, 7) + 62;
    assert DaysBefore(y, 11) == DaysBefore(y, 9) + 61;
  }

  lemma YearDayCounts(date: Date)
    requires Valid(date)
    ensures YearDay(date) == DaysBefore(date.y, date.m) + date.d - 1
    ensures 0 <= YearDay(date) < if Leap(date.y) then 366 else 365
  {
    hide Leap, CMod, DaysBefore;
    SameLeapYears(date.y);
    DaysBeforeMonths(date.y);
  }

  lemma TimeOfDay(t: int)
    ensures Days(t) == t / 86400
    ensures t == 86400 * Days(t) + 3600 * Gmtime(t).hour + 60 * Gmtime(t).min + Gmtime(t).sec
    ensures 0 <= Gmtime(t).hour < 24 && 0 <= Gmtime(t).min < 60 && 0 <= Gmtime(t).sec < 60
  {
    hide Civil, YearDay, ToInt;
    var secs := t % 86400;
    assert Days(t) == t / 86400;
    assert secs == t - 86400 * Days(t);
    assert secs / 60 / 60 == secs / 3600;
    assert secs == 60 * (secs / 60) + secs % 60;
    assert secs / 60 == 60 * (secs / 60 / 60) + secs / 60 % 60;
  }

  lemma WeekDay(t: int)
    ensures Gmtime(t).wday == (4 + Days(t)) % 7
  {
    hide Civil, YearDay, ToInt, Days;
    var days := Days(t);
    var q := CDiv(days, 7);
    assert -7 < CMod(days, 7) < 7 && days == 7 * q + CMod(days, 7);
    assert (CMod(days, 7) + 11) % 7 == (4 + days) % 7;
  }

  /** What gmtime_r promises for every time, negative ones included: its
      fields are the counted date, the day of the year and of the week, and a
      time of day that adds up to t. */
  lemma GmtimeCorrect(t: int)
    ensures var tm, days := Gmtime(t), Days(t); var date := Counted(days);
      && t == 86400 * days + 3600 * tm.hour + 60 * tm.min + tm.sec
      && 0 <= tm.hour < 24 && 0 <= tm.min < 60 && 0 <= tm.sec < 60
      && Valid(date) && tm.mday == date.d && tm.mon == date.m - 1
      && tm.yday == DaysBefore(date.y, date.m) + date.d - 1
      && tm.wday == (4 + days) % 7
  {
    TimeOfDay(t);
    WeekDay(t);
    hide Civil, YearDay, Valid, DaysBefore, Counted, CMod, CDiv, Days, ToInt;
    CivilIsCounted(Days(t));
    YearDayCounts(Civil(Days(t)));
  }

  // ---------------------------------------------------------------------
  // The years an int can hold
  // ---------------------------------------------------------------------

  lemma {:induction false} YearsRise(a: int, b: int)
    requires a <= b
    ensures Counted(a).y <= Counted(b).y
    decreases b - a
  {
    if a < b {
      YearsRise(a, b - 1);
      assert if b > 0 then Counted(b) == Next(Counted(b - 1)) else Counted(b - 1) == Previous(Counted(b));
    }
  }

  const FIRST_DAY := -784_352_321_872
  const LAST_DAY := 784_352_270_736

  lemma EdgeYears()
    ensures Counted(FIRST_DAY).y == 1900 - INT_RANGE / 2 && Counted(FIRST_DAY - 1).y < 1900 - INT_RANGE / 2
    ensures Counted(LAST_DAY).y == 1899 + INT_RANGE / 2 && Counted(LAST_DAY + 1).y == 1900 + INT_RANGE / 2
  {
    hide Counted, Civil, MarchDate;
    CivilIsCounted(FIRST_DAY);
    CivilIsCounted(FIRST_DAY - 1);
    CivilIsCounted(LAST_DAY);
    CivilIsCounted(LAST_DAY + 1);
    CivilAt(FIRST_DAY, -5368705, 251, 306);
    CivilAt(FIRST_DAY - 1, -5368705, 251, 305);
    CivilAt(LAST_DAY, 5368713, 347, 305);
    CivilAt(LAST_DAY + 1, 5368713, 347, 306);
    NewYear(251 - 5368705 * 400);
    NewYear(347 + 5368713 * 400);
  }

  // The last day of December and the first of January, in a year from March.
  lemma NewYear(year: int)
    ensures MarchDate(year, 305).y == year && MarchDate(year, 306).y == year + 1
  {
  }

  lemma YearIs(t: int)
    ensures Gmtime(t).year == ToInt(Counted(Days(t)).y - 1900)
  {
    hide Civil, YearDay, Counted, CMod, CDiv, Days, ToInt;
    CivilIsCounted(Days(t));
  }

  /** tm_year is an int: it holds the year exactly from the first second of the year
      -2147481748 to the last of 2147485547, and wraps otherwise. */
  lemma GmtimeYear(t: int)
    ensures Gmtime(t).year == Counted(Days(t)).y - 1900 <==> -67_768_040_609_740_800 <= t <= 67_768_036_191_676_799
  {
    hide Gmtime, Counted, Days;
    var days := Days(t);
    YearIs(t);
    EdgeYears();
    if days < FIRST_DAY { YearsRise(days, FIRST_DAY - 1); } else { YearsRise(FIRST_DAY, days); }
    if days > LAST_DAY { YearsRise(LAST_DAY + 1, days); } else { YearsRise(days, LAST_DAY); }
    DaysRange(t);
  }

  lemma DaysRange(t: int)
    ensures FIRST_DAY <= Days(t) <= LAST_DAY <==> -67_768_040_609_740_800 <= t <= 67_768_036_191_676_799
  {
    hide Days, Gmtime;
    TimeOfDay(t);
  }

  /** A second later the year is the least an int can be. */
  lemma YearWraps()
    ensures Counted(Days(67_768_036_191_676_800)).y == 2147485548 && Gmtime(67_768_036_191_676_800).year == -2147483648
  {
    hide Gmtime, Counted, Days;
    EdgeYears();
    TimeOfDay(67_768_036_191_676_800);
    YearIs(67_768_036_191_676_800);
  }
}
