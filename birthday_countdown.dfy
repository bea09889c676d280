/** src/components/BirthdayCountdown/BirthdayCountdown.tsx: the number of days until the next
    birthday. Only the birth month and day are read; the time of the call is a parameter. */
module BirthdayCountdown {
  import opened Calendar
  import opened JsNumber

  datatype Countdown = Countdown(days: int, nextBirthday: Date, isToday: bool)

  /** This year's anniversary, moved to next year when its midnight is strictly before `now`;
      either way its midnight is not before `now`. */
  function NextBirthday(birth: Date, now: DateTime): (next: Date)
    requires ValidDate(birth) && ValidDateTime(now)
    ensures ValidDate(next)
    ensures next.year == now.date.year || next.year == now.date.year + 1
    ensures next == AnniversaryIn(next.year, birth)
    ensures next.year == now.date.year + 1
        <==> Time(Midnight(AnniversaryIn(now.date.year, birth))) < Time(now)
    ensures Time(Midnight(next)) >= Time(now)
  {
    var candidate := NewAnniversary(now.date.year, birth);
    NextYearAnniversaryAfter(birth, now);
    if Time(Midnight(candidate)) < Time(now) then NewAnniversary(now.date.year + 1, birth)
    else candidate
  }

  /** `calculateDaysUntilBirthday()`. On the birth day and month the count is zero; otherwise
      it is the whole days, rounded up, until the next birthday's midnight, and it is zero only
      when that midnight is `now` itself. */
  function DaysUntilBirthday(birth: Date, now: DateTime): (c: Countdown)
    requires ValidDate(birth) && ValidDateTime(now)
    ensures c.isToday <==> now.date.day == birth.day && now.date.month == birth.month
    ensures c.isToday ==> c.days == 0
    ensures c.nextBirthday == NextBirthday(birth, now)
    ensures !c.isToday ==> c.days >= 0
    ensures !c.isToday ==> (c.days == 0 <==> Time(Midnight(c.nextBirthday)) == Time(now))
  {
    var next := NextBirthday(birth, now);
    var isToday := now.date.day == birth.day && now.date.month == birth.month;
    if isToday then Countdown(0, next, true)
    else Countdown(CeilDiv(Time(Midnight(next)) - Time(now), MsPerDay), next, false)
  }

  /** A 29 February birthday at the first moment of 1 March in a common year: zero days, yet
      not the birthday. */
  lemma ZeroDaysNotTodayExample()
    ensures DaysUntilBirthday(Date(2000, 1, 29), DateTime(Date(2023, 2, 1), 0))
         == Countdown(0, Date(2023, 2, 1), false)
  {
    assert AnniversaryIn(2023, Date(2000, 1, 29)) == Date(2023, 2, 1);
  }

  /** That is the only way to get zero days off the birthday: a 29 February birth, a common
      year, and `now` at the first moment of 1 March. */
  lemma ZeroDaysNotTodayOnlyThen(birth: Date, now: DateTime)
    requires ValidDate(birth) && ValidDateTime(now)
    requires !DaysUntilBirthday(birth, now).isToday && DaysUntilBirthday(birth, now).days == 0
    ensures birth.month == 1 && birth.day == 29 && !IsLeapYear(now.date.year)
    ensures now == DateTime(Date(now.date.year, 2, 1), 0)
  {
    var next := NextBirthday(birth, now);
    assert Time(Midnight(next)) == Time(now);
    TimeInjective(Midnight(next), now);
  }

  /** The birth year plays no part. */
  lemma CountdownIgnoresBirthYear(birth: Date, year: int, now: DateTime)
    requires ValidDate(birth) && ValidDate(birth.(year := year)) && ValidDateTime(now)
    ensures DaysUntilBirthday(birth.(year := year), now) == DaysUntilBirthday(birth, now)
  {
  }

  /** The count evidently intended: this year's birthday moves to next year when its midnight
      is not after `now`, as the next-birthday sentence of the age expressions does. */
  function CorrectedDaysUntilBirthday(birth: Date, now: DateTime): (c: Countdown)
    requires ValidDate(birth) && ValidDateTime(now)
    ensures c.isToday <==> now.date.day == birth.day && now.date.month == birth.month
    ensures c.isToday ==> c.days == 0
    ensures !c.isToday ==> c.days >= 1
  {
    var candidate := NewAnniversary(now.date.year, birth);
    var next := if Time(Midnight(candidate)) <= Time(now) then NewAnniversary(now.date.year + 1, birth)
                else candidate;
    NextYearAnniversaryAfter(birth, now);
    var isToday := now.date.day == birth.day && now.date.month == birth.month;
    if isToday then Countdown(0, next, true)
    else Countdown(CeilDiv(Time(Midnight(next)) - Time(now), MsPerDay), next, false)
  }

  /** The correction changes the result only at the one moment where this year's birthday
      midnight is `now` itself. */
  lemma CorrectionAgreesElsewhere(birth: Date, now: DateTime)
    requires ValidDate(birth) && ValidDateTime(now)
    requires Time(Midnight(AnniversaryIn(now.date.year, birth))) != Time(now)
    ensures CorrectedDaysUntilBirthday(birth, now) == DaysUntilBirthday(birth, now)
  {
  }
}
