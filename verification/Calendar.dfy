/** Instants and calendar shifts: Go's `time.Time.AddDate` over the proleptic
    Gregorian calendar, and `shiftTime` of internal/ledger and internal/worker. */
module Calendar {

  /** Nanoseconds since 1970-01-01T00:00:00Z. */
  type Time = int

  const NS_PER_SECOND := 1_000_000_000
  const NS_PER_DAY := 86_400_000_000_000
  /** January 1970 as a month index. */
  const EPOCH_MONTH := 23640

  /** An ISO 8601 duration, parsed, each field already truncated to an integer. */
  datatype Duration = Duration(
    negative: bool, years: nat, months: nat, weeks: nat, days: nat,
    hours: nat, minutes: nat, seconds: nat)
  {
    /** Calendar months of the year and month fields together. */
    function MonthPart(): (r: int) ensures r >= 0 { 12 * years + months }

    function DayPart(): (r: int) ensures r >= 0 { 7 * weeks + days }

    function ClockPart(): (r: int) ensures r >= 0 { (3600 * hours + 60 * minutes + seconds) * NS_PER_SECOND }

    predicate NonZero() { MonthPart() > 0 || DayPart() > 0 || ClockPart() > 0 }

    /** The durations that move time forward. */
    predicate Positive() { !negative && NonZero() }
  }

  // ---- The Gregorian calendar by month index (12 * year + month - 1) ----

  predicate IsLeap(year: int) {
    year % 4 == 0 && (year % 100 != 0 || year % 400 == 0)
  }

  function MonthLength(month: int): (days: int)
    ensures 28 <= days <= 31
  {
    var m := month % 12;
    if m == 1 then (if IsLeap(month / 12) then 29 else 28)
    else if m == 3 || m == 5 || m == 8 || m == 10 then 30
    else 31
  }

  /** Day number (from 1970-01-01) of the first day of month `month`. */
  function MonthStart(month: int): int
    decreases if month < EPOCH_MONTH then EPOCH_MONTH - month else month - EPOCH_MONTH
  {
    if month == EPOCH_MONTH then 0
    else if month > EPOCH_MONTH then MonthStart(month - 1) + MonthLength(month - 1)
    else MonthStart(month + 1) - MonthLength(month)
  }

  /** Consecutive month starts are one calendar month apart. */
  lemma {:induction false} MonthStartSteps(month: int)
    ensures MonthStart(month + 1) == MonthStart(month) + MonthLength(month)
  {
  }

  lemma {:induction false} MonthStartIncreases(first: int, last: int)
    requires first <= last
    ensures MonthStart(first) + 28 * (last - first) <= MonthStart(last)
    decreases last - first
  {
    if first < last {
      MonthStartIncreases(first, last - 1);
      MonthStartSteps(last - 1);
    }
  }

  /** The month holding day `day`, searched from month `guess`. */
  function FindMonth(day: int, guess: int): (month: int)
    ensures MonthStart(month) <= day < MonthStart(month + 1)
    decreases if day < MonthStart(guess) then MonthStart(guess) - day else day - MonthStart(guess)
  {
    MonthStartSteps(guess);
    MonthStartSteps(guess - 1);
    if day < MonthStart(guess) then
      if day >= MonthStart(guess - 1) then guess - 1 else FindMonth(day, guess - 1)
    else if day >= MonthStart(guess + 1) then FindMonth(day, guess + 1)
    else guess
  }

  function MonthOf(day: int): (month: int)
    ensures MonthStart(month) <= day < MonthStart(month + 1)
  {
    FindMonth(day, EPOCH_MONTH)
  }

  /** Days since the first of the month: `Day() - 1`. */
  function DayOffset(day: int): nat {
    day - MonthStart(MonthOf(day))
  }

  lemma {:induction false} MonthIsUnique(day: int, month: int)
    requires MonthStart(month) <= day < MonthStart(month + 1)
    ensures MonthOf(day) == month
  {
    var found := MonthOf(day);
    if found < month {
      MonthStartIncreases(found + 1, month);
    } else if month < found {
      MonthStartIncreases(month + 1, found);
    }
  }

  // ---- Go's AddDate and the repository's shiftTime ----

  function DayNumber(t: Time): int { t / NS_PER_DAY }

  function ClockTime(t: Time): int { t % NS_PER_DAY }

  function FromDay(day: int, clock: int): Time { day * NS_PER_DAY + clock }

  /** The day `months` calendar months and then `days` days after `day`; a day of
      month past the end of the target month overflows into the next one. */
  function AddDays(day: int, months: int, days: int): int {
    MonthStart(MonthOf(day) + months) + DayOffset(day) + days
  }

  function AddDate(t: Time, years: int, months: int, days: int): Time {
    FromDay(AddDays(DayNumber(t), 12 * years + months, days), ClockTime(t))
  }

  /** The sign multiplies the date fields; only its sign decides the way of the clock fields. */
  function ShiftBy(t: Time, d: Duration, sign: int): Time {
    var shifted := AddDate(t, d.years * sign, d.months * sign, d.weeks * 7 * sign + d.days * sign);
    shifted + (if sign < 0 then -d.ClockPart() else d.ClockPart())
  }

  /** internal/ledger's shiftTime: the sign of the duration times the direction asked for. */
  function ShiftTime(t: Time, d: Duration, mult: int): Time {
    ShiftBy(t, d, (if d.negative then -1 else 1) * mult)
  }

  /** internal/worker's shiftTime: no multiplier, and the sign of the duration is ignored. */
  function WorkerShift(t: Time, d: Duration): Time {
    AddDate(t, d.years, d.months, d.weeks * 7 + d.days) + d.ClockPart()
  }

  lemma {:induction false} SplitDay(t: Time)
    ensures t == FromDay(DayNumber(t), ClockTime(t)) && 0 <= ClockTime(t) < NS_PER_DAY
  {
  }

  lemma {:induction false} DayOfSum(day: int, clock: int)
    requires 0 <= clock < NS_PER_DAY
    ensures DayNumber(FromDay(day, clock)) == day && ClockTime(FromDay(day, clock)) == clock
  {
  }

  /** A shift one way or the other, as a sum of its three parts. */
  lemma {:induction false} ShiftParts(t: Time, d: Duration)
    ensures ShiftBy(t, d, 1) == FromDay(AddDays(DayNumber(t), d.MonthPart(), d.DayPart()), ClockTime(t)) + d.ClockPart()
    ensures ShiftBy(t, d, -1)
            == FromDay(AddDays(DayNumber(t), -d.MonthPart(), -d.DayPart()), ClockTime(t)) - d.ClockPart()
    ensures ShiftBy(t, d, 1) == WorkerShift(t, d)
  {
  }

  /** How far a shift by `months` moves a day: the gap between two month starts. */
  lemma {:induction false} AddDaysGap(day: int, months: int, days: int)
    ensures AddDays(day, months, days) - day == MonthStart(MonthOf(day) + months) - MonthStart(MonthOf(day)) + days
    ensures months >= 0 ==> AddDays(day, months, days) - day >= 28 * months + days
    ensures months <= 0 ==> AddDays(day, months, days) - day <= 28 * months + days
  {
    var month := MonthOf(day);
    if months >= 0 {
      MonthStartIncreases(month, month + months);
    } else {
      MonthStartIncreases(month + months, month);
    }
  }

  lemma {:induction false} FromDayOrders(day: int, other: int, clock: int)
    ensures FromDay(day, clock) <= FromDay(other, clock) <==> day <= other
    ensures FromDay(day, clock) == FromDay(other, clock) <==> day == other
  {
  }

  lemma {:induction false} ShiftsForward(t: Time, d: Duration)
    ensures ShiftBy(t, d, 1) >= t
    ensures ShiftBy(t, d, 1) > t <==> d.NonZero()
  {
    var day, clock := DayNumber(t), ClockTime(t);
    var landed := AddDays(day, d.MonthPart(), d.DayPart());
    AddDaysGap(day, d.MonthPart(), d.DayPart());
    SplitDay(t);
    ShiftParts(t, d);
    FromDayOrders(day, landed, clock);
  }

  lemma {:induction false} ShiftsBackward(t: Time, d: Duration)
    ensures ShiftBy(t, d, -1) <= t
    ensures ShiftBy(t, d, -1) < t <==> d.NonZero()
  {
    var day, clock := DayNumber(t), ClockTime(t);
    var landed := AddDays(day, -d.MonthPart(), -d.DayPart());
    AddDaysGap(day, -d.MonthPart(), -d.DayPart());
    SplitDay(t);
    ShiftParts(t, d);
    FromDayOrders(landed, day, clock);
  }

  /** One forward shift is strictly later exactly for positive durations, stands still
      exactly for empty ones; the backward shift mirrors it. */
  lemma {:induction false} ShiftDirection(t: Time, d: Duration)
    ensures ShiftTime(t, d, 1) > t <==> d.Positive()
    ensures ShiftTime(t, d, -1) < t <==> d.Positive()
    ensures ShiftTime(t, d, 1) == t <==> !d.NonZero()
    ensures ShiftTime(t, d, -1) == t <==> !d.NonZero()
  {
    ShiftsForward(t, d);
    ShiftsBackward(t, d);
  }

  /** The worker always moves forward; it agrees with the ledger exactly when the
      duration carries no sign to ignore. */
  lemma {:induction false} WorkerShiftDirection(t: Time, d: Duration)
    ensures WorkerShift(t, d) > t <==> d.NonZero()
    ensures WorkerShift(t, d) == t <==> !d.NonZero()
    ensures WorkerShift(t, d) == ShiftTime(t, d, 1) <==> !d.negative || !d.NonZero()
  {
    ShiftParts(t, d);
    ShiftsForward(t, d);
    ShiftsBackward(t, d);
  }

  // ---- Round trips and drift ----

  /** Where a month shift lands, as month and day of month: the target month when it
      is long enough, otherwise the first days of the month after it. */
  lemma {:induction false} MonthShiftLanding(day: int, months: int)
    ensures var target := MonthOf(day) + months; var landed := AddDays(day, months, 0);
            if DayOffset(day) < MonthLength(target)
            then MonthOf(landed) == target && DayOffset(landed) == DayOffset(day)
            else MonthOf(landed) == target + 1 && DayOffset(landed) == DayOffset(day) - MonthLength(target)
  {
    var target := MonthOf(day) + months;
    var landed := AddDays(day, months, 0);
    MonthStartSteps(MonthOf(day));
    MonthStartSteps(target);
    MonthStartSteps(target + 1);
    if DayOffset(day) < MonthLength(target) {
      MonthIsUnique(landed, target);
    } else {
      MonthIsUnique(landed, target + 1);
    }
  }

  /** Two month shifts in a row equal one shift of the sum exactly when the day fits
      the middle month, or the last month is as long as the one it overflowed. */
  lemma {:induction false} MonthShiftsCompose(day: int, first: int, second: int)
    ensures AddDays(AddDays(day, first, 0), second, 0) == AddDays(day, first + second, 0)
            <==> DayOffset(day) < MonthLength(MonthOf(day) + first)
                 || MonthLength(MonthOf(day) + first) == MonthLength(MonthOf(day) + first + second)
  {
    var middle := MonthOf(day) + first;
    MonthShiftLanding(day, first);
    MonthStartSteps(middle + second);
    assert middle + second == MonthOf(day) + (first + second);
    assert middle + 1 + second == middle + second + 1;
  }

  predicate CalendarOnly(d: Duration) { d.DayPart() == 0 && d.ClockPart() == 0 }

  /** Months moved by a shift, with the sign of the duration and of the direction. */
  function MonthsMoved(d: Duration, mult: int): int {
    if d.negative == (mult < 0) then d.MonthPart() else -d.MonthPart()
  }

  lemma {:induction false} CalendarShift(t: Time, d: Duration, mult: int)
    requires CalendarOnly(d) && (mult == 1 || mult == -1)
    ensures ShiftTime(t, d, mult) == FromDay(AddDays(DayNumber(t), MonthsMoved(d, mult), 0), ClockTime(t))
    ensures ClockTime(ShiftTime(t, d, mult)) == ClockTime(t)
    ensures DayNumber(ShiftTime(t, d, mult)) == AddDays(DayNumber(t), MonthsMoved(d, mult), 0)
  {
    ShiftParts(t, d);
    SplitDay(t);
    DayOfSum(AddDays(DayNumber(t), MonthsMoved(d, mult), 0), ClockTime(t));
  }

  lemma {:induction false} RoundTripDay(day: int, months: int)
    ensures AddDays(AddDays(day, months, 0), -months, 0) == day
            <==> DayOffset(day) < MonthLength(MonthOf(day) + months)
  {
    MonthShiftsCompose(day, months, -months);
    MonthStartSteps(MonthOf(day));
  }

  /** Forward then backward by whole months is the identity exactly when the month
      landed in has the day; every day of month up to the 28th does. */
  lemma {:induction false} CalendarRoundTrip(t: Time, d: Duration)
    requires CalendarOnly(d)
    ensures ShiftTime(ShiftTime(t, d, 1), d, -1) == t
            <==> DayOffset(DayNumber(t)) < MonthLength(MonthOf(DayNumber(t)) + MonthsMoved(d, 1))
    ensures DayOffset(DayNumber(t)) < 28 ==> ShiftTime(ShiftTime(t, d, 1), d, -1) == t
  {
    var months, day, clock := MonthsMoved(d, 1), DayNumber(t), ClockTime(t);
    CalendarShift(t, d, 1);
    CalendarShift(ShiftTime(t, d, 1), d, -1);
    SplitDay(t);
    RoundTripDay(day, months);
    var back := AddDays(AddDays(day, months, 0), -months, 0);
    FromDayOrders(back, day, clock);
  }

  lemma {:induction false} FixedShift(t: Time, d: Duration)
    requires d.MonthPart() == 0
    ensures ShiftBy(t, d, 1) == t + d.DayPart() * NS_PER_DAY + d.ClockPart()
    ensures ShiftBy(t, d, -1) == t - d.DayPart() * NS_PER_DAY - d.ClockPart()
  {
  }

  /** Forward then backward is the identity when there is no year or month part. */
  lemma {:induction false} FixedRoundTrip(t: Time, d: Duration)
    requires d.MonthPart() == 0
    ensures ShiftTime(ShiftTime(t, d, 1), d, -1) == t
  {
    FixedShift(t, d);
    FixedShift(ShiftTime(t, d, 1), d);
  }

  /** A way of stepping from one instant to another, such as one shift by a duration. */
  type Stepper = Time -> Time

  ghost predicate Advances(step: Stepper) { forall t: Time :: step(t) > t }

  ghost predicate Retreats(step: Stepper) { forall t: Time :: step(t) < t }

  ghost predicate NeverRetreats(step: Stepper) { forall t: Time :: step(t) >= t }

  function Iterate(step: Stepper, t: Time, k: nat): Time {
    if k == 0 then t else step(Iterate(step, t, k - 1))
  }

  /** One ledger shift by `d`, forward or backward. */
  function Shifter(d: Duration, mult: int): Stepper {
    (t: Time) => ShiftTime(t, d, mult)
  }

  function WorkerShifter(d: Duration): Stepper {
    (t: Time) => WorkerShift(t, d)
  }

  lemma {:induction false} PositiveSteps(d: Duration)
    ensures Advances(Shifter(d, 1)) <==> d.Positive()
  {
    forall t: Time
      ensures Shifter(d, 1)(t) > t <==> d.Positive()
    {
      ShiftDirection(t, d);
    }
    assert Shifter(d, 1)(0) > 0 <==> d.Positive();
  }

  lemma {:induction false} PositiveStepsBack(d: Duration)
    ensures Retreats(Shifter(d, -1)) <==> d.Positive()
  {
    forall t: Time
      ensures Shifter(d, -1)(t) < t <==> d.Positive()
    {
      ShiftDirection(t, d);
    }
    assert Shifter(d, -1)(0) < 0 <==> d.Positive();
  }

  lemma {:induction false} WorkerSteps(d: Duration)
    ensures Advances(WorkerShifter(d)) <==> d.NonZero()
  {
    forall t: Time
      ensures WorkerShifter(d)(t) > t <==> d.NonZero()
    {
      WorkerShiftDirection(t, d);
    }
    assert WorkerShifter(d)(0) > 0 <==> d.NonZero();
  }

  lemma {:induction false} WorkerNeverRetreats(d: Duration)
    ensures NeverRetreats(WorkerShifter(d))
  {
    forall t: Time
      ensures WorkerShifter(d)(t) >= t
    {
      WorkerShiftDirection(t, d);
    }
  }

  lemma {:induction false} ExtendShift(day: int, before: int, m: int)
    requires DayOffset(day) < 28
    ensures AddDays(AddDays(day, before, 0), m, 0) == AddDays(day, before + m, 0)
  {
    MonthShiftsCompose(day, before, m);
  }

  lemma {:induction false} NextMonthStep(day: int, clock: int, before: int, d: Duration)
    requires CalendarOnly(d) && !d.negative && DayOffset(day) < 28 && 0 <= clock < NS_PER_DAY
    ensures Shifter(d, 1)(FromDay(AddDays(day, before, 0), clock))
            == FromDay(AddDays(day, before + d.MonthPart(), 0), clock)
  {
    DayOfSum(AddDays(day, before, 0), clock);
    CalendarShift(FromDay(AddDays(day, before, 0), clock), d, 1);
    hide AddDays, FromDay, DayNumber, ClockTime, DayOffset;
    ExtendShift(day, before, d.MonthPart());
  }

  lemma {:induction false} IterateOnce(step: Stepper, t: Time, k: nat)
    requires k > 0
    ensures Iterate(step, t, k) == step(Iterate(step, t, k - 1))
  {
  }

  /** `k` times `m`, one addition at a time. */
  function Added(m: int, k: nat): int {
    if k == 0 then 0 else Added(m, k - 1) + m
  }

  lemma {:induction false} AddedIs(m: int, k: nat)
    ensures Added(m, k) == k * m
  {
    if k > 0 {
      AddedIs(m, k - 1);
    }
  }

  lemma {:induction false} AddsNothing(day: int)
    ensures AddDays(day, 0, 0) == day
  {
    hide *;
    AddDaysGap(day, 0, 0);
  }

  lemma {:induction false} AddedNext(m: int, k: nat)
    ensures Added(m, k) == if k == 0 then 0 else Added(m, k - 1) + m
  {
  }

  lemma {:induction false} NoDriftDays(day: int, clock: int, d: Duration, k: nat)
    requires CalendarOnly(d) && !d.negative && DayOffset(day) < 28 && 0 <= clock < NS_PER_DAY
    ensures Iterate(Shifter(d, 1), FromDay(day, clock), k)
            == FromDay(AddDays(day, Added(d.MonthPart(), k), 0), clock)
  {
    var t := FromDay(day, clock);
    if k == 0 {
      hide AddDays, FromDay;
      AddsNothing(day);
    } else {
      hide *;
      AddedNext(d.MonthPart(), k);
      NoDriftDays(day, clock, d, k - 1);
      IterateOnce(Shifter(d, 1), t, k);
      NextMonthStep(day, clock, Added(d.MonthPart(), k - 1), d);
    }
  }

  /** No drift: on days 1-28, k shifts by a number of months are one shift by k times as many. */
  lemma {:induction false} NoDrift(t: Time, d: Duration, e: Duration, k: nat)
    requires CalendarOnly(d) && !d.negative && DayOffset(DayNumber(t)) < 28
    requires CalendarOnly(e) && !e.negative && e.MonthPart() == k * d.MonthPart()
    ensures Iterate(Shifter(d, 1), t, k) == ShiftTime(t, e, 1)
  {
    AddedIs(d.MonthPart(), k);
    CalendarShift(t, e, 1);
    SplitDay(t);
    hide ShiftTime, AddDays, FromDay, DayNumber, ClockTime, DayOffset, Iterate, Shifter, Added;
    NoDriftDays(DayNumber(t), ClockTime(t), d, k);
  }

  lemma {:induction false} FirstMonths(january: int)
    requires january % 12 == 0 && !IsLeap(january / 12)
    ensures MonthLength(january) == 31 && MonthLength(january + 1) == 28 && MonthLength(january + 2) == 31
  {
  }

  /** January 31 of a common year plus one month is March 3; coming back gives
      February 3, and a second month gives April 3, not March 31. */
  lemma {:induction false} MonthEndDrifts(january: int)
    requires january % 12 == 0 && !IsLeap(january / 12)
    ensures var jan31 := MonthStart(january) + 30;
            var oneMonth := AddDays(jan31, 1, 0);
            && oneMonth == MonthStart(january + 2) + 2
            && AddDays(oneMonth, -1, 0) == MonthStart(january + 1) + 2
            && AddDays(oneMonth, 1, 0) == MonthStart(january + 3) + 2
            && AddDays(jan31, 2, 0) == MonthStart(january + 2) + 30
  {
    hide MonthLength, MonthStart, IsLeap, MonthOf;
    FirstMonths(january);
    MonthStartSteps(january);
    MonthStartSteps(january + 1);
    MonthStartSteps(january + 2);
    MonthIsUnique(MonthStart(january) + 30, january);
    MonthIsUnique(MonthStart(january + 2) + 2, january + 2);
  }

  // ---- Shifts that overtake each other ----

  /** Of two days shifted by the same months, the earlier one lands later exactly when they are
      in adjacent months and it overflows its target month beyond the other's day. */
  lemma {:induction false} DaysCross(a: int, b: int, months: int)
    requires a <= b
    ensures AddDays(a, months, 0) > AddDays(b, months, 0) <==>
            MonthOf(b) == MonthOf(a) + 1 && DayOffset(a) > MonthLength(MonthOf(a) + months) + DayOffset(b)
    ensures a < b && AddDays(a, months, 0) == AddDays(b, months, 0) <==>
            MonthOf(b) == MonthOf(a) + 1 && DayOffset(a) == MonthLength(MonthOf(a) + months) + DayOffset(b)
  {
    var first, second := MonthOf(a), MonthOf(b);
    hide MonthLength, MonthStart, MonthOf;
    MonthStartSteps(first);
    MonthStartSteps(first + months);
    if second < first {
      MonthStartIncreases(second + 1, first);
    } else if second > first {
      MonthStartIncreases(first + months + 1, second + months);
    }
  }

  lemma {:induction false} FromDayCompares(a: int, clockA: int, b: int, clockB: int)
    requires 0 <= clockA < NS_PER_DAY && 0 <= clockB < NS_PER_DAY
    ensures FromDay(a, clockA) > FromDay(b, clockB) <==> a > b || (a == b && clockA > clockB)
  {
  }

  lemma {:induction false} AddDaysSplits(day: int, months: int, days: int)
    ensures AddDays(day, months, days) == AddDays(day, months, 0) + days
  {
  }

  /** Shifting is not monotone. The earlier of two instants overtakes the later, for any duration
      and direction, exactly when they lie in adjacent months and the earlier one overflows the
      shorter target month past the day (or, on the same day, the time) of the other. */
  lemma {:induction false} ShiftsCross(t: Time, u: Time, d: Duration, mult: int)
    requires t < u && (mult == 1 || mult == -1)
    ensures var a, b := DayNumber(t), DayNumber(u);
            var overflow := DayOffset(a) - MonthLength(MonthOf(a) + MonthsMoved(d, mult));
            ShiftTime(t, d, mult) > ShiftTime(u, d, mult) <==>
              && MonthOf(b) == MonthOf(a) + 1
              && (overflow > DayOffset(b) || (overflow == DayOffset(b) && ClockTime(t) > ClockTime(u)))
  {
    var a, b, months := DayNumber(t), DayNumber(u), MonthsMoved(d, mult);
    var days := if d.negative == (mult < 0) then d.DayPart() else -d.DayPart();
    ShiftParts(t, d);
    ShiftParts(u, d);
    SplitDay(t);
    SplitDay(u);
    hide AddDays, FromDay, DayNumber, ClockTime, MonthLength, MonthOf, DayOffset, ShiftBy, WorkerShift;
    FromDayCompares(b, ClockTime(u), a, ClockTime(t));
    AddDaysSplits(a, months, days);
    AddDaysSplits(b, months, days);
    DaysCross(a, b, months);
    FromDayCompares(AddDays(a, months, days), ClockTime(t), AddDays(b, months, days), ClockTime(u));
  }

  /** January 31 passes February 1 on the way forward by a month. */
  lemma {:induction false} ShiftsCanCross(january: int)
    requires january % 12 == 0 && !IsLeap(january / 12)
    ensures AddDays(MonthStart(january) + 30, 1, 0) > AddDays(MonthStart(january + 1), 1, 0)
  {
    MonthEndDrifts(january);
    MonthStartSteps(january + 1);
    MonthIsUnique(MonthStart(january + 1), january + 1);
  }
}
