/** src/components/AgeExpressions/AgeExpressions.tsx: the parameters of the five age sentences.
    The next birthday is this year's anniversary unless its midnight is not after now, and the
    next age is that birthday's year minus the birth year. The `dd/MM/yyyy` formatting of the
    date is not modelled; the date itself is kept. */
module AgeExpressions {
  import opened Calendar
  import opened AgeCalculator

  datatype NextBirthdayInfo = NextBirthdayInfo(date: Date, age: int)

  /** `getNextBirthdayInfo(birthDate)` at the moment `now`. */
  function GetNextBirthdayInfo(birth: DateTime, now: DateTime): (info: NextBirthdayInfo)
    requires ValidDateTime(birth) && ValidDateTime(now)
    ensures info.date == AnniversaryIn(info.date.year, birth.date)
    ensures info.date.year == now.date.year || info.date.year == now.date.year + 1
    ensures info.date.year == now.date.year + 1
        <==> Time(Midnight(AnniversaryIn(now.date.year, birth.date))) <= Time(now)
    ensures Time(Midnight(info.date)) > Time(now)
    ensures info.age == info.date.year - birth.date.year
  {
    var currentYear := now.date.year;
    var candidate := NewAnniversary(currentYear, birth.date);
    NextYearAnniversaryAfter(birth.date, now);
    if Time(Midnight(candidate)) <= Time(now) then
      var nextBirthday := NewAnniversary(currentYear + 1, birth.date);
      NextBirthdayInfo(nextBirthday, nextBirthday.year - birth.date.year)
    else
      NextBirthdayInfo(candidate, candidate.year - birth.date.year)
  }

  /** For a birth moment not after now, the next age is at least one. */
  lemma NextAgePositive(birth: DateTime, now: DateTime)
    requires ValidDateTime(birth) && ValidDateTime(now)
    requires Time(birth) <= Time(now)
    ensures GetNextBirthdayInfo(birth, now).age >= 1
  {
    TimeOrder(birth, now);
    DayNumberOrder(now.date, birth.date);
    assert birth.date.year <= now.date.year;
    if birth.date.year == now.date.year {
      assert AnniversaryIn(now.date.year, birth.date) == birth.date;
    }
  }

  /** The `params` record handed to every sentence. */
  datatype ExpressionParams = ExpressionParams(
    age: int, years: int, months: int, days: int, nextBirthday: Date, nextAge: int)

  /** `params`: `age` and `years` both carry the completed years, months and days pass through
      from the calculator's result, and the next birthday fields from `getNextBirthdayInfo`. */
  function Params(ageResult: AgeResult, birth: DateTime, now: DateTime): (p: ExpressionParams)
    requires ValidDateTime(birth) && ValidDateTime(now)
    ensures p.age == p.years == ageResult.years
    ensures p.months == ageResult.months && p.days == ageResult.days
    ensures p.nextBirthday == GetNextBirthdayInfo(birth, now).date
    ensures p.nextAge == GetNextBirthdayInfo(birth, now).age
  {
    var info := GetNextBirthdayInfo(birth, now);
    ExpressionParams(ageResult.years, ageResult.years, ageResult.months, ageResult.days, info.date, info.age)
  }

  /** With the calculator's result for the same two moments, the sentences agree: the next
      age is one more than the completed years. */
  lemma NextAgeFollowsAge(birth: DateTime, now: DateTime)
    requires ValidDateTime(birth) && ValidDateTime(now)
    requires Time(birth) <= Time(now)
    ensures Params(AgeBetween(birth, now), birth, now).nextAge == Params(AgeBetween(birth, now), birth, now).age + 1
  {
    var y, b := now.date.year, birth.date;
    var a := AnniversaryIn(y, b);
    var info := GetNextBirthdayInfo(birth, now);
    AgeFields(birth, now);
    var early := now.date.month < b.month || (now.date.month == b.month && now.date.day < b.day);
    assert Time(Midnight(a)) <= Time(now) <==> !Before(now.date, a) by {
      DayNumberOrder(now.date, a);
      TimeOrder(Midnight(a), now);
      TimeOrder(now, Midnight(a));
    }
    assert Before(now.date, a) <==> early;
    if early {
      assert info.date.year == y;
      assert AgeBetween(birth, now).years == y - b.year - 1;
    } else {
      assert info.date.year == y + 1;
      assert AgeBetween(birth, now).years == y - b.year;
    }
  }
}
