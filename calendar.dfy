/** The part of JavaScript's `Date` the age components use, in one fixed local time zone without
    daylight saving: the proleptic Gregorian calendar, the day numbers of ECMA-262
    (section 21.4.1, "Time Values and Time Range": DayFromYear, MakeDay), the overflow
    normalisation that `new Date(year, month, day)` performs (29 February of a common year is
    1 March, day 0 is the last day of the month before), and `getTime()` as a day number times
    86 400 000 plus the milliseconds since midnight. Months are 0-based, as in `getMonth()`. */
module Calendar {

  const MsPerDay: int := 86400000

  predicate IsLeapYear(y: int) {
    y % 4 == 0 && (y % 100 != 0 || y % 400 == 0)
  }

  function DaysInYear(y: int): int {
    if IsLeapYear(y) then 366 else 365
  }

  function DaysInMonth(y: int, m: int): (n: int)
    requires 0 <= m < 12
    ensures 28 <= n <= 31
    ensures n == 29 <==> m == 1 && IsLeapYear(y)
    ensures n == 28 <==> m == 1 && !IsLeapYear(y)
  {
    if m == 1 then (if IsLeapYear(y) then 29 else 28)
    else if m == 3 || m == 5 || m == 8 || m == 10 then 30
    else 31
  }

  /** ECMA-262 DayFromYear: the day number of 1 January of `y`, counted from 1 January 1970. */
  function DayFromYear(y: int): int {
    365 * (y - 1970) + (y - 1969) / 4 - (y - 1901) / 100 + (y - 1601) / 400
  }

  /** The number of days of year `y` before the first day of month `m` (ECMA-262's table
      behind MonthFromTime, with one more day from March on in a leap year). */
  function DaysBeforeMonth(y: int, m: int): int
    requires 0 <= m <= 12
  {
    [0, 31, 59, 90, 120, 151, 181, 212, 243, 273, 304, 334, 365][m]
    + (if m >= 2 && IsLeapYear(y) then 1 else 0)
  }

  lemma MonthLength(y: int, m: int)
    requires 0 <= m < 12
    ensures DaysBeforeMonth(y, m + 1) == DaysBeforeMonth(y, m) + DaysInMonth(y, m)
  {
  }
  /** The day number of the first day of month `m` of year `y`. */
  function MonthStart(y: int, m: int): int
    requires 0 <= m < 12
  {
    DayFromYear(y) + DaysBeforeMonth(y, m)
  }

  /** ECMA-262 MakeDay(year, month, date): the month may lie outside 0..11 (it carries into
      the year) and the date outside the month (it counts on from the month's first day). */
  function MakeDay(y: int, m: int, d: int): int {
    MonthStart(y + m / 12, m % 12) + d - 1
  }

  /** A calendar date: what `getFullYear()`, `getMonth()` and `getDate()` report. */
  datatype Date = Date(year: int, month: int, day: int)

  predicate ValidDate(dt: Date) {
    0 <= dt.month < 12 && 1 <= dt.day <= DaysInMonth(dt.year, dt.month)
  }

  function DayNumber(dt: Date): int {
    MakeDay(dt.year, dt.month, dt.day)
  }

  /** Lexicographic order on (year, month, day). */
  predicate Before(a: Date, b: Date) {
    a.year < b.year
    || (a.year == b.year && (a.month < b.month || (a.month == b.month && a.day < b.day)))
  }

  /** One more year adds one leap cycle of four exactly when `y` is a multiple of 4; likewise
      for the century and the 400-year corrections. */
  lemma Step4(y: int)
    ensures (y - 1968) / 4 == (y - 1969) / 4 + (if y % 4 == 0 then 1 else 0)
  {
  }

  lemma Step100(y: int)
    ensures (y - 1900) / 100 == (y - 1901) / 100 + (if y % 100 == 0 then 1 else 0)
  {
  }

  lemma Step400(y: int)
    ensures (y - 1600) / 400 == (y - 1601) / 400 + (if y % 400 == 0 then 1 else 0)
  {
  }

  /** A multiple of 400 is a multiple of 100, and a multiple of 100 one of 4. */
  lemma MultipleOf400(y: int)
    requires y % 400 == 0
    ensures y % 100 == 0
  {
    var k := y / 400;
    assert y == 100 * (4 * k);
  }

  lemma MultipleOf100(y: int)
    requires y % 100 == 0
    ensures y % 4 == 0
  {
    var k := y / 100;
    assert y == 4 * (25 * k);
  }

  lemma YearLength(y: int)
    ensures DayFromYear(y + 1) == DayFromYear(y) + DaysInYear(y)
  {
    Step4(y);
    Step100(y);
    Step400(y);
    if y % 400 == 0 {
      MultipleOf400(y);
    }
    if y % 100 == 0 {
      MultipleOf100(y);
    }
  }

  lemma MonthsFillYear(y: int)
    ensures DaysBeforeMonth(y, 12) == DaysInYear(y)
  {
  }

  lemma {:induction false} DaysBeforeMonthMonotone(y: int, m1: int, m2: int)
    requires 0 <= m1 <= m2 <= 12
    ensures DaysBeforeMonth(y, m1) <= DaysBeforeMonth(y, m2)
  {
    if m1 < m2 {
      DaysBeforeMonthMonotone(y, m1, m2 - 1);
      MonthLength(y, m2 - 1);
    }
  }

  lemma {:induction false} DayFromYearMonotone(y1: int, y2: int)
    requires y1 <= y2
    ensures DayFromYear(y1) <= DayFromYear(y2)
    decreases y2 - y1
  {
    if y1 < y2 {
      DayFromYearMonotone(y1, y2 - 1);
      YearLength(y2 - 1);
    }
  }

  /** A valid date lies inside its month and inside its year. */
  lemma DateBounds(dt: Date)
    requires ValidDate(dt)
    ensures MonthStart(dt.year, dt.month) <= DayNumber(dt)
    ensures DayNumber(dt) < MonthStart(dt.year, dt.month) + DaysInMonth(dt.year, dt.month)
    ensures DayFromYear(dt.year) <= DayNumber(dt) < DayFromYear(dt.year + 1)
  {
    MakeDayInMonth(dt.year, dt.month, dt.day);
    MonthLength(dt.year, dt.month);
    DaysBeforeMonthMonotone(dt.year, dt.month + 1, 12);
    MonthsFillYear(dt.year);
    YearLength(dt.year);
  }

  /** Day numbers order valid dates as the calendar does. */
  lemma BeforeDayNumber(a: Date, b: Date)
    requires ValidDate(a) && ValidDate(b) && Before(a, b)
    ensures DayNumber(a) < DayNumber(b)
  {
    if a.year < b.year {
      EarlierYear(a, b);
    } else {
      SameYear(a, b);
    }
  }

  lemma EarlierYear(a: Date, b: Date)
    requires ValidDate(a) && ValidDate(b) && a.year < b.year
    ensures DayNumber(a) < DayNumber(b)
  {
    DateBounds(a);
    DateBounds(b);
    DayFromYearMonotone(a.year + 1, b.year);
  }

  lemma SameYear(a: Date, b: Date)
    requires ValidDate(a) && ValidDate(b) && a.year == b.year && Before(a, b)
    ensures DayNumber(a) < DayNumber(b)
  {
    MakeDayInMonth(a.year, a.month, a.day);
    MakeDayInMonth(b.year, b.month, b.day);
    if a.month < b.month {
      MonthLength(a.year, a.month);
      DaysBeforeMonthMonotone(a.year, a.month + 1, b.month);
    }
  }

  /** Valid dates and day numbers are in one-to-one, order-preserving correspondence. */
  lemma DayNumberOrder(a: Date, b: Date)
    requires ValidDate(a) && ValidDate(b)
    ensures DayNumber(a) < DayNumber(b) <==> Before(a, b)
    ensures DayNumber(a) == DayNumber(b) <==> a == b
  {
    if Before(a, b) {
      BeforeDayNumber(a, b);
    } else if Before(b, a) {
      BeforeDayNumber(b, a);
    }
  }

  /** MakeDay on a month inside 0..11 counts from that month's first day. */
  lemma MakeDayInMonth(y: int, m: int, d: int)
    requires 0 <= m < 12
    ensures MakeDay(y, m, d) == MonthStart(y, m) + d - 1
  {
  }

  /** The month before month `m` of year `y`. */
  function PreviousMonth(y: int, m: int): (r: (int, int))
    requires 0 <= m < 12
    ensures 0 <= r.1 < 12
    ensures MonthStart(r.0, r.1) + DaysInMonth(r.0, r.1) == MonthStart(y, m)
  {
    if m == 0 then
      MonthsFillYear(y - 1);
      YearLength(y - 1);
      (y - 1, 11)
    else
      MonthLength(y, m - 1);
      (y, m - 1)
  }

  /** The month after month `m` of year `y`. */
  function NextMonth(y: int, m: int): (r: (int, int))
    requires 0 <= m < 12
    ensures 0 <= r.1 < 12
    ensures MonthStart(y, m) + DaysInMonth(y, m) == MonthStart(r.0, r.1)
  {
    if m == 11 then
      MonthsFillYear(y);
      YearLength(y);
      (y + 1, 0)
    else
      MonthLength(y, m);
      (y, m + 1)
  }

  /** Day `d` counted from the first day of month `m` of year `y` (0..11), as a calendar
      date: a day outside the month moves into the months before or after it. */
  function Normalize(y: int, m: int, d: int): (r: Date)
    requires 0 <= m < 12
    ensures ValidDate(r)
    ensures DayNumber(r) == MonthStart(y, m) + d - 1
    decreases if d < 1 then 1 - d else 0, if d < 1 then 0 else d
  {
    if d < 1 then
      var p := PreviousMonth(y, m);
      Normalize(p.0, p.1, d + DaysInMonth(p.0, p.1))
    else if d > DaysInMonth(y, m) then
      var n := NextMonth(y, m);
      Normalize(n.0, n.1, d - DaysInMonth(y, m))
    else
      MakeDayInMonth(y, m, d);
      Date(y, m, d)
  }

  /** `new Date(y, m, d)` as the date it denotes: the month carries into the year, and the day
      is then normalised within the calendar. ECMA-262's MakeFullYear step, which reads a year
      in 0..99 as 1900 + y, is not applied: every `y` given here is the clock's current year. */
  function NewDate(y: int, m: int, d: int): (r: Date)
    ensures ValidDate(r)
    ensures DayNumber(r) == MakeDay(y, m, d)
  {
    Normalize(y + m / 12, m % 12, d)
  }

  /** A valid date is its own normalisation. */
  lemma NewDateOfValid(dt: Date)
    requires ValidDate(dt)
    ensures NewDate(dt.year, dt.month, dt.day) == dt
  {
    assert dt.month / 12 == 0 && dt.month % 12 == dt.month;
  }

  /** `new Date(y, m, 0)` is the last day of the month before `m`. */
  lemma NewDateDayZero(y: int, m: int)
    requires 0 <= m < 12
    ensures NewDate(y, m, 0)
         == Date(PreviousMonth(y, m).0, PreviousMonth(y, m).1,
                 DaysInMonth(PreviousMonth(y, m).0, PreviousMonth(y, m).1))
  {
    assert m / 12 == 0 && m % 12 == m;
    var p := PreviousMonth(y, m);
    NewDateOfValid(Date(p.0, p.1, DaysInMonth(p.0, p.1)));
  }

  /** The anniversary of a valid date in year `y`: the same month and day, except that
      29 February falls on 1 March in a common year. */
  function AnniversaryIn(y: int, birth: Date): (r: Date)
    requires ValidDate(birth)
    ensures ValidDate(r) && r.year == y
    ensures r != Date(y, birth.month, birth.day)
        ==> birth.month == 1 && birth.day == 29 && !IsLeapYear(y) && r == Date(y, 2, 1)
  {
    if birth.day <= DaysInMonth(y, birth.month) then Date(y, birth.month, birth.day)
    else Date(y, 2, 1)
  }

  /** `new Date(y, birth.getMonth(), birth.getDate())` is that anniversary. */
  lemma Anniversary(y: int, birth: Date)
    requires ValidDate(birth)
    ensures NewDate(y, birth.month, birth.day) == AnniversaryIn(y, birth)
  {
    assert birth.month / 12 == 0 && birth.month % 12 == birth.month;
    if birth.day > DaysInMonth(y, birth.month) {
      assert NextMonth(y, 1) == (y, 2);
      NewDateOfValid(Date(y, 2, 1));
    } else {
      NewDateOfValid(Date(y, birth.month, birth.day));
    }
  }

  /** `new Date(y, birth.getMonth(), birth.getDate())`, equal to the anniversary. */
  function NewAnniversary(y: int, birth: Date): (r: Date)
    requires ValidDate(birth)
    ensures r == AnniversaryIn(y, birth)
  {
    Anniversary(y, birth);
    NewDate(y, birth.month, birth.day)
  }

  /** A moment in local time: a date and the milliseconds since its midnight. */
  datatype DateTime = DateTime(date: Date, ms: int)

  predicate ValidDateTime(t: DateTime) {
    ValidDate(t.date) && 0 <= t.ms < MsPerDay
  }

  /** `getTime()`, in the fixed local zone. */
  function Time(t: DateTime): int {
    DayNumber(t.date) * MsPerDay + t.ms
  }

  /** A `Date` built from year, month and day alone stands at local midnight. */
  function Midnight(d: Date): DateTime {
    DateTime(d, 0)
  }

  /** Comparing moments compares their dates first. */
  lemma TimeOrder(a: DateTime, b: DateTime)
    requires ValidDateTime(a) && ValidDateTime(b)
    ensures DayNumber(a.date) < DayNumber(b.date) ==> Time(a) < Time(b)
    ensures Time(a) <= Time(b) ==> DayNumber(a.date) <= DayNumber(b.date)
  {
  }

  /** The anniversary of `birth` in the year after `now`'s lies after `now`. */
  lemma NextYearAnniversaryAfter(birth: Date, now: DateTime)
    requires ValidDate(birth) && ValidDateTime(now)
    ensures Time(Midnight(AnniversaryIn(now.date.year + 1, birth))) > Time(now)
  {
    var next := AnniversaryIn(now.date.year + 1, birth);
    BeforeDayNumber(now.date, next);
    TimeOrder(now, Midnight(next));
  }

  /** Distinct valid moments have distinct times. */
  lemma TimeInjective(a: DateTime, b: DateTime)
    requires ValidDateTime(a) && ValidDateTime(b) && Time(a) == Time(b)
    ensures a == b
  {
    TimeOrder(a, b);
    TimeOrder(b, a);
    DayNumberOrder(a.date, b.date);
  }
}
