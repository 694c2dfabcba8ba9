/** The month arithmetic of `Calendar` against dates: years, months and days of the proleptic
    Gregorian calendar, counted by the 400-year era, and both shifts field by field. */
module CivilDates {
  import opened Calendar

  const DAYS_PER_ERA := 146097

  /** Days from 1970-01-01 to the 1st of March of a year, by the 400-year era. */
  function MarchStart(year: int): int {
    var era, yearOfEra := year / 400, year % 400;
    era * DAYS_PER_ERA + yearOfEra * 365 + yearOfEra / 4 - yearOfEra / 100 - 719468
  }

  /** Days from the 1st of March to the first of the month so many months later. */
  function MarchOffset(months: int): int {
    (153 * months + 2) / 5
  }

  /** Days from 1970-01-01 to a date. Years are taken from March on, so that the leap day comes
      last; a day outside its month runs over into the months beside it. */
  function DaysFromCivil(year: int, month: int, day: int): int {
    if month <= 2 then MarchStart(year - 1) + MarchOffset(month + 9) + day - 1
    else MarchStart(year) + MarchOffset(month - 3) + day - 1
  }

  predicate IsMonth(month: int) { 1 <= month <= 12 }

  lemma {:induction false} MonthIndex(year: int, month: int)
    requires IsMonth(month)
    ensures (12 * year + month - 1) % 12 == month - 1 && (12 * year + month - 1) / 12 == year
  {
  }

  // ---- Lengths of months, years and eras ----

  lemma {:induction false} RestBy4(x: int, quotient: int, rest: int)
    requires x == 4 * quotient + rest && 0 <= rest < 4
    ensures x % 4 == rest
  {
  }

  lemma {:induction false} RestBy100(x: int, quotient: int, rest: int)
    requires x == 100 * quotient + rest && 0 <= rest < 100
    ensures x % 100 == rest
  {
  }

  lemma {:induction false} LeapByEra(year: int)
    ensures IsLeap(year) <==> var y := year % 400; y % 4 == 0 && (y % 100 != 0 || y == 0)
  {
    var era, y := year / 400, year % 400;
    RestBy4(year, 100 * era + y / 4, y % 4);
    RestBy100(year, 4 * era + y / 100, y % 100);
  }

  lemma {:induction false} MarchYearLength(year: int)
    ensures MarchStart(year) - MarchStart(year - 1) == if IsLeap(year) then 366 else 365
  {
    LeapByEra(year);
    if year % 400 == 0 {
      assert (year - 1) / 400 == year / 400 - 1 && (year - 1) % 400 == 399;
    } else {
      assert (year - 1) / 400 == year / 400 && (year - 1) % 400 == year % 400 - 1;
    }
  }

  /** Thirty days have April, June, September and November; February 28, in leap years 29. */
  lemma {:induction false} MonthLengths(year: int)
    ensures MonthLength(12 * year) == 31 && MonthLength(12 * year + 1) == (if IsLeap(year) then 29 else 28)
    ensures MonthLength(12 * year + 2) == 31 && MonthLength(12 * year + 3) == 30 && MonthLength(12 * year + 4) == 31
    ensures MonthLength(12 * year + 5) == 30 && MonthLength(12 * year + 6) == 31 && MonthLength(12 * year + 7) == 31
    ensures MonthLength(12 * year + 8) == 30 && MonthLength(12 * year + 9) == 31 && MonthLength(12 * year + 10) == 30
    ensures MonthLength(12 * year + 11) == 31
  {
    assert (12 * year + 1) % 12 == 1 && (12 * year + 1) / 12 == year;
    hide IsLeap;
  }

  lemma {:induction false} NextMonthCivil(year: int, month: int)
    requires IsMonth(month)
    ensures var (y, m) := if month == 12 then (year + 1, 1) else (year, month + 1);
            DaysFromCivil(y, m, 1) == DaysFromCivil(year, month, 1) + MonthLength(12 * year + month - 1)
  {
    MonthLengths(year);
    if month == 2 {
      MarchYearLength(year);
    }
    hide MarchStart, MonthLength, IsLeap;
  }

  lemma {:induction false} EpochIs()
    ensures DaysFromCivil(1970, 1, 1) == 0 && EPOCH_MONTH / 12 == 1970 && EPOCH_MONTH % 12 == 0
  {
  }

  /** A month start, by its index, is the first of that month. */
  lemma {:induction false} MonthStartIs(month: int)
    ensures MonthStart(month) == DaysFromCivil(month / 12, month % 12 + 1, 1)
    decreases if month < EPOCH_MONTH then EPOCH_MONTH - month else month - EPOCH_MONTH
  {
    hide DaysFromCivil, MonthLength;
    if month == EPOCH_MONTH {
      EpochIs();
    } else if month > EPOCH_MONTH {
      MonthStartIs(month - 1);
      NextMonthCivil((month - 1) / 12, (month - 1) % 12 + 1);
    } else {
      MonthStartIs(month + 1);
      NextMonthCivil(month / 12, month % 12 + 1);
    }
  }

  lemma {:induction false} DayRunsOver(year: int, month: int, day: int)
    ensures DaysFromCivil(year, month, day) == DaysFromCivil(year, month, 1) + day - 1
  {
  }

  /** The day count of `Calendar` is the closed form, for every date. */
  lemma {:induction false} CivilDay(year: int, month: int, day: int)
    requires IsMonth(month)
    ensures MonthStart(12 * year + month - 1) + day - 1 == DaysFromCivil(year, month, day)
  {
    MonthStartIs(12 * year + month - 1);
    MonthIndex(year, month);
    DayRunsOver(year, month, day);
    hide MonthStart, DaysFromCivil;
  }

  lemma {:induction false} EraLater(year: int)
    ensures MarchStart(year + 400) == MarchStart(year) + DAYS_PER_ERA
  {
    assert (year + 400) / 400 == year / 400 + 1 && (year + 400) % 400 == year % 400;
  }

  /** Calendar years are 365 days long, leap years 366; 400 years are one era. */
  lemma {:induction false} YearLength(year: int)
    ensures MonthStart(12 * (year + 1)) - MonthStart(12 * year) == if IsLeap(year) then 366 else 365
    ensures MonthStart(12 * (year + 400)) - MonthStart(12 * year) == DAYS_PER_ERA
  {
    CivilDay(year, 1, 1);
    CivilDay(year + 1, 1, 1);
    CivilDay(year + 400, 1, 1);
    MarchYearLength(year);
    EraLater(year - 1);
    hide MonthStart, MarchStart, IsLeap;
  }

  // ---- Dates of days ----

  /** A date that exists. */
  predicate IsDate(year: int, month: int, day: int) {
    IsMonth(month) && 1 <= day <= MonthLength(12 * year + month - 1)
  }

  /** A day knows its date: its month, and the day of the month. */
  lemma {:induction false} DateOfDay(year: int, month: int, day: int)
    requires IsDate(year, month, day)
    ensures MonthOf(DaysFromCivil(year, month, day)) == 12 * year + month - 1
    ensures DayOffset(DaysFromCivil(year, month, day)) == day - 1
  {
    CivilDay(year, month, day);
    MonthStartSteps(12 * year + month - 1);
    hide MonthStart, DaysFromCivil, MonthLength;
    MonthIsUnique(DaysFromCivil(year, month, day), 12 * year + month - 1);
  }

  /** An instant by date and nanoseconds into the day. */
  function At(year: int, month: int, day: int, clock: int): Time {
    DaysFromCivil(year, month, day) * NS_PER_DAY + clock
  }

  lemma {:induction false} AddDaysIsCivil(year: int, month: int, day: int, months: int, days: int)
    requires IsDate(year, month, day)
    ensures var index := 12 * year + (month - 1) + months;
            AddDays(DaysFromCivil(year, month, day), months, days)
            == DaysFromCivil(index / 12, index % 12 + 1, day + days)
  {
    var index := 12 * year + (month - 1) + months;
    DateOfDay(year, month, day);
    MonthStartIs(index);
    DayRunsOver(index / 12, index % 12 + 1, day + days);
    hide DaysFromCivil, MonthStart, MonthOf, DayOffset, MonthLength;
  }

  /** Go's AddDate: add to the fields, then let a month past December and a day past the month's
      end run over. */
  lemma {:induction false} AddDateIsCivil(year: int, month: int, day: int, clock: int, years: int, months: int,
                                          days: int)
    requires IsDate(year, month, day) && 0 <= clock < NS_PER_DAY
    ensures var index := 12 * (year + years) + (month - 1) + months;
            AddDate(At(year, month, day, clock), years, months, days)
            == At(index / 12, index % 12 + 1, day + days, clock)
  {
    hide DaysFromCivil, AddDays, IsDate;
    DayOfSum(DaysFromCivil(year, month, day), clock);
    hide DayNumber, ClockTime;
    AddDaysIsCivil(year, month, day, 12 * years + months, days);
    assert 12 * year + (month - 1) + (12 * years + months) == 12 * (year + years) + (month - 1) + months;
  }

  // ---- The two shifts, field by field ----

  const NS_PER_HOUR := 3_600_000_000_000
  const NS_PER_MINUTE := 60_000_000_000

  function ClockMoved(d: Duration): int {
    d.hours * NS_PER_HOUR + d.minutes * NS_PER_MINUTE + d.seconds * NS_PER_SECOND
  }

  lemma {:induction false} ShiftsByParts(t: Time, d: Duration)
    ensures ShiftBy(t, d, 1) == AddDate(t, d.years, d.months, 7 * d.weeks + d.days) + ClockMoved(d)
    ensures ShiftBy(t, d, -1) == AddDate(t, 0 - d.years, 0 - d.months, 0 - 7 * d.weeks - d.days) - ClockMoved(d)
    ensures WorkerShift(t, d) == AddDate(t, d.years, d.months, 7 * d.weeks + d.days) + ClockMoved(d)
  {
    hide AddDate;
    assert d.ClockPart() == ClockMoved(d);
  }

  /** The ledger's shift, forward or back: years and months move the month, weeks and days the day,
      and hours, minutes and seconds are added as they are; the sign of the duration turns all of
      them round. */
  lemma {:induction false} ShiftIsCivil(year: int, month: int, day: int, clock: int, d: Duration, mult: int)
    requires IsDate(year, month, day) && 0 <= clock < NS_PER_DAY && (mult == 1 || mult == -1)
    ensures var ahead := 12 * (year + d.years) + (month - 1) + d.months;
            var behind := 12 * (year - d.years) + (month - 1) - d.months;
            var days := 7 * d.weeks + d.days;
            ShiftTime(At(year, month, day, clock), d, mult)
            == if d.negative == (mult < 0)
               then At(ahead / 12, ahead % 12 + 1, day + days, clock) + ClockMoved(d)
               else At(behind / 12, behind % 12 + 1, day - days, clock) - ClockMoved(d)
  {
    ShiftsByParts(At(year, month, day, clock), d);
    hide ShiftBy, AddDate, At, MonthLength, ClockMoved;
    AddDateIsCivil(year, month, day, clock, d.years, d.months, 7 * d.weeks + d.days);
    AddDateIsCivil(year, month, day, clock, 0 - d.years, 0 - d.months, 0 - 7 * d.weeks - d.days);
  }

  /** The worker's and the handlers' shift is the same forward, whatever the sign. */
  lemma {:induction false} WorkerShiftIsCivil(year: int, month: int, day: int, clock: int, d: Duration)
    requires IsDate(year, month, day) && 0 <= clock < NS_PER_DAY
    ensures var index := 12 * (year + d.years) + (month - 1) + d.months;
            WorkerShift(At(year, month, day, clock), d)
            == At(index / 12, index % 12 + 1, day + 7 * d.weeks + d.days, clock)
               + ClockMoved(d)
  {
    ShiftsByParts(At(year, month, day, clock), d);
    hide WorkerShift, AddDate, At, MonthLength, ClockMoved;
    AddDateIsCivil(year, month, day, clock, d.years, d.months, 7 * d.weeks + d.days);
  }

  function Hours(n: nat): Duration { Duration(false, 0, 0, 0, 0, n, 0, 0) }

  function Days(n: nat): Duration { Duration(false, 0, 0, 0, n, 0, 0, 0) }

  /** An hour is 3600 seconds at any instant, and a day is 24 hours. */
  lemma {:induction false} HoursAreFixed(t: Time, n: nat)
    ensures ShiftTime(t, Hours(n), 1) == WorkerShift(t, Hours(n)) == t + n * 3600 * 1_000_000_000
    ensures ShiftTime(t, Days(n), 1) == ShiftTime(t, Hours(24 * n), 1)
  {
    FixedShift(t, Hours(n));
    FixedShift(t, Days(n));
    FixedShift(t, Hours(24 * n));
    ShiftParts(t, Hours(n));
    hide ShiftBy, WorkerShift, AddDate;
  }

  /** Every instant has a date. */
  lemma {:induction false} InstantHasDate(t: Time) returns (year: int, month: int, day: int, clock: int)
    ensures IsDate(year, month, day) && 0 <= clock < NS_PER_DAY && t == At(year, month, day, clock)
  {
    var index := MonthOf(DayNumber(t));
    year, month, day, clock := index / 12, index % 12 + 1, DayOffset(DayNumber(t)) + 1, ClockTime(t);
    SplitDay(t);
    MonthStartSteps(index);
    CivilDay(year, month, day);
    hide MonthStart, DaysFromCivil, MonthLength, DayNumber, ClockTime;
    assert 12 * year + month - 1 == index;
  }

  /** Which durations move time at all, and which forward, by their fields. */
  lemma {:induction false} MovesByFields(d: Duration)
    ensures var some := d.years > 0 || d.months > 0 || d.weeks > 0 || d.days > 0 || d.hours > 0 || d.minutes > 0
                        || d.seconds > 0;
            (d.NonZero() <==> some) && (d.Positive() <==> some && !d.negative)
  {
  }
}
