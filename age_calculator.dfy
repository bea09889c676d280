/** src/components/AgeCalculator/AgeCalculator.tsx: the age form. `calculateAge` subtracts the
    birth date from today's date field by field with two borrow steps, and derives the totals by
    floor division of the millisecond difference. Translated error messages are represented by
    their keys. */
module AgeCalculator {
  import opened Common
  import opened Calendar

  datatype AgeResult = AgeResult(
    years: int, months: int, days: int, totalDays: int, totalHours: int, totalMinutes: int)

  datatype ErrorMessage = NoError | SelectBirthDateError | FutureDateError

  const MsPerHour: int := 1000 * 3600
  const MsPerMinute: int := 1000 * 60

  /** The length of the month before month `m` of year `y`. */
  function PreviousMonthLength(y: int, m: int): (n: int)
    requires 0 <= m < 12
    ensures 28 <= n <= 31
  {
    DaysInMonth(PreviousMonth(y, m).0, PreviousMonth(y, m).1)
  }

  /** `new Date(y, m, 0).getDate()` is the length of the month before `m`. */
  lemma DayZeroIsPreviousMonthLength(y: int, m: int)
    requires 0 <= m < 12
    ensures NewDate(y, m, 0).day == PreviousMonthLength(y, m)
  {
    NewDateDayZero(y, m);
  }

  /** The result of `calculateAge` from `birth` to `today`: first the day borrow (one month
      less, plus the length of the month before today's), then the month borrow (one year less,
      plus twelve months). The months count is the number of whole months between the two
      dates, and the totals nest: hours are whole sixties of minutes and days whole
      twenty-fours of hours. */
  function AgeBetween(birth: DateTime, today: DateTime): (r: AgeResult)
    requires ValidDateTime(today)
    ensures r.years * 12 + r.months
         == 12 * (today.date.year - birth.date.year) + (today.date.month - birth.date.month)
            - (if today.date.day < birth.date.day then 1 else 0)
    ensures r.totalHours == r.totalMinutes / 60 && r.totalDays == r.totalHours / 24
  {
    var td, bd := today.date.day, birth.date.day;
    var dayBorrow := td < bd;
    var months0 := today.date.month - birth.date.month - (if dayBorrow then 1 else 0);
    var days := td - bd + (if dayBorrow then PreviousMonthLength(today.date.year, today.date.month) else 0);
    var monthBorrow := months0 < 0;
    var years := today.date.year - birth.date.year - (if monthBorrow then 1 else 0);
    var months := months0 + (if monthBorrow then 12 else 0);
    var timeDiff := Time(today) - Time(birth);
    assert timeDiff / 60000 / 60 == timeDiff / 3600000;
    assert timeDiff / 3600000 / 24 == timeDiff / 86400000;
    AgeResult(years, months, days, timeDiff / MsPerDay, timeDiff / MsPerHour, timeDiff / MsPerMinute)
  }

  /** The calendar fields of two real dates: months in 0..11, days at most 30, and the days
      count as computed by the borrow. */
  lemma AgeFields(birth: DateTime, today: DateTime)
    requires ValidDateTime(birth) && ValidDateTime(today)
    ensures var a := AgeBetween(birth, today);
      && 0 <= a.months <= 11
      && a.days <= 30
      && a.days == if today.date.day >= birth.date.day then today.date.day - birth.date.day
                   else today.date.day - birth.date.day
                        + PreviousMonthLength(today.date.year, today.date.month)
  {
  }

  /** A birth moment not after today gives a non-negative number of years. */
  lemma AgeYearsNonNegative(birth: DateTime, today: DateTime)
    requires ValidDateTime(birth) && ValidDateTime(today)
    requires Time(birth) <= Time(today)
    ensures AgeBetween(birth, today).years >= 0
  {
    TimeOrder(birth, today);
    DayNumberOrder(today.date, birth.date);
    assert !Before(today.date, birth.date);
  }

  /** Birth on 31 January and today 1 March of a common year: one month and -2 days. */
  lemma NegativeDaysExample()
    ensures AgeBetween(DateTime(Date(2023, 0, 31), 0), DateTime(Date(2023, 2, 1), 0)).months == 1
    ensures AgeBetween(DateTime(Date(2023, 0, 31), 0), DateTime(Date(2023, 2, 1), 0)).days == -2
  {
    assert PreviousMonth(2023, 2) == (2023, 1);
  }

  /** The day count evidently intended: when the birth day does not exist in the month before
      today's, that month's last day stands in for it. */
  function CorrectedDays(birth: Date, today: Date): int
    requires 0 <= today.month < 12
  {
    if today.day >= birth.day then today.day - birth.day
    else
      var n := PreviousMonthLength(today.year, today.month);
      today.day + n - (if birth.day < n then birth.day else n)
  }

  /** The corrected count always lies in 0..30, agrees with `calculateAge` whenever the birth
      day exists in the month before today's, and gives one day in the example above. */
  lemma CorrectedDaysInRange(birth: Date, today: Date)
    requires ValidDate(birth) && ValidDate(today)
    ensures 0 <= CorrectedDays(birth, today) <= 30
    ensures birth.day <= PreviousMonthLength(today.year, today.month)
        ==> CorrectedDays(birth, today) == AgeBetween(DateTime(birth, 0), DateTime(today, 0)).days
    ensures CorrectedDays(Date(2023, 0, 31), Date(2023, 2, 1)) == 1
  {
    assert PreviousMonth(2023, 2) == (2023, 1);
  }

  /** What the date picker passes to `onChange`: a real moment, or the Invalid Date a partly
      typed `dd/MM/yyyy` field gives (a `Date` object, so truthy, whose time is NaN). */
  datatype PickedDate = Picked(moment: DateTime) | InvalidDate

  /** The `ageResult` state: the computed fields, or six NaN fields when the birth date was an
      Invalid Date. */
  datatype ShownAge = Age(result: AgeResult) | AllNaN

  class AgeCalculatorForm {
    var birthDate: Option<PickedDate>
    var ageResult: Option<ShownAge>
    var error: ErrorMessage

    /** A picked moment is a real date. */
    ghost predicate Valid()
      reads this
    {
      birthDate.Some? && birthDate.value.Picked? ==> ValidDateTime(birthDate.value.moment)
    }

    constructor ()
      ensures Valid()
      ensures birthDate == None && ageResult == None && error == NoError
    {
      birthDate := None;
      ageResult := None;
      error := NoError;
    }

    /** The date picker's `onChange`. */
    method SetBirthDate(newValue: Option<PickedDate>)
      requires newValue.Some? && newValue.value.Picked? ==> ValidDateTime(newValue.value.moment)
      modifies this
      ensures Valid()
      ensures birthDate == newValue && ageResult == old(ageResult) && error == old(error)
    {
      birthDate := newValue;
    }

    /** `calculateAge()` at the moment `today`. Without a birth date, or with one after
        `today`, only the error is set; an equal moment is accepted. An Invalid Date passes both
        guards (`birth > today` is false for NaN): the error is cleared and every field of the
        result is NaN. */
    method CalculateAge(today: DateTime)
      requires Valid() && ValidDateTime(today)
      modifies this
      ensures Valid() && birthDate == old(birthDate)
      ensures birthDate.None? ==> error == SelectBirthDateError && ageResult == old(ageResult)
      ensures birthDate == Some(InvalidDate) ==> error == NoError && ageResult == Some(AllNaN)
      ensures birthDate.Some? && birthDate.value.Picked? && Time(birthDate.value.moment) > Time(today) ==>
                error == FutureDateError && ageResult == old(ageResult)
      ensures birthDate.Some? && birthDate.value.Picked? && Time(birthDate.value.moment) <= Time(today) ==>
                error == NoError && ageResult == Some(Age(AgeBetween(birthDate.value.moment, today)))
    {
      if birthDate.None? {
        error := SelectBirthDateError;
        return;
      }
      if birthDate.value.InvalidDate? {
        error := NoError;
        ageResult := Some(AllNaN);
        return;
      }
      var birth := birthDate.value.moment;
      if Time(birth) > Time(today) {
        error := FutureDateError;
        return;
      }
      error := NoError;

      var years := today.date.year - birth.date.year;
      var months := today.date.month - birth.date.month;
      var days := today.date.day - birth.date.day;

      if days < 0 {
        months := months - 1;
        var lastMonth := NewDate(today.date.year, today.date.month, 0);
        DayZeroIsPreviousMonthLength(today.date.year, today.date.month);
        days := days + lastMonth.day;
      }

      if months < 0 {
        years := years - 1;
        months := months + 12;
      }

      var timeDiff := Time(today) - Time(birth);
      var totalDays := timeDiff / (1000 * 3600 * 24);
      var totalHours := timeDiff / (1000 * 3600);
      var totalMinutes := timeDiff / (1000 * 60);

      ghost var a := AgeBetween(birth, today);
      assert years == a.years && months == a.months && days == a.days;
      assert totalDays == a.totalDays && totalHours == a.totalHours && totalMinutes == a.totalMinutes;
      ageResult := Some(Age(AgeResult(years, months, days, totalDays, totalHours, totalMinutes)));
    }

    /** `handleReset()` */
    method HandleReset()
      modifies this
      ensures Valid()
      ensures birthDate == None && ageResult == None && error == NoError
    {
      birthDate := None;
      ageResult := None;
      error := NoError;
    }
  }
}
