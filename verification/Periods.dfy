/** Usage periods: `buildPeriods` of internal/ledger. The stepping is kept abstract
    here (`step` forward, `back` backward) and bound to a duration at the end. */
module Periods {
  import opened Calendar

  datatype Period = Period(from: Time, to: Time)

  /** `count` consecutive periods, each one step long. */
  function Chain(step: Stepper, start: Time, count: nat): (periods: seq<Period>)
    ensures |periods| == count
  {
    seq(count, (i: int) requires 0 <= i => Period(Iterate(step, start, i), Iterate(step, start, i + 1)))
  }

  /** The first backward step from `curr` that is not after `t`. */
  function Rewind(back: Stepper, curr: Time, t: Time): (start: Time)
    requires Retreats(back)
    ensures start <= t && start <= curr
    ensures curr <= t ==> start == curr
    decreases if curr > t then curr - t else 0
  {
    if curr > t then Rewind(back, back(curr), t) else curr
  }

  /** How many periods it takes from `start` to pass `t`, once `done` have not. */
  function Count(step: Stepper, start: Time, t: Time, done: nat): (count: nat)
    requires Advances(step) && Iterate(step, start, done) <= t
    ensures count > done
    ensures Iterate(step, start, count - 1) <= t < Iterate(step, start, count)
    decreases t - Iterate(step, start, done)
  {
    if Iterate(step, start, done + 1) <= t then Count(step, start, t, done + 1) else done + 1
  }

  /** The periods a balance read at `t` walks through. */
  function PeriodsAt(step: Stepper, back: Stepper, anchor: Time, t: Time): (periods: seq<Period>)
    requires Advances(step) && Retreats(back)
    ensures |periods| > 0
  {
    var start := Rewind(back, anchor, t);
    Chain(step, start, Count(step, start, t, 0))
  }

  /** Each period starts where the one before it ended, none is empty. */
  predicate Contiguous(periods: seq<Period>) {
    && (forall i {:trigger periods[i]} :: 0 <= i < |periods| ==> periods[i].from < periods[i].to)
    && (forall i, j {:trigger periods[i], periods[j]} :: 0 <= i && j == i + 1 < |periods| ==>
            periods[i].to == periods[j].from)
  }

  lemma {:induction false} IterateIncreases(step: Stepper, start: Time, j: nat, k: nat)
    requires Advances(step) && j <= k
    ensures Iterate(step, start, j) + (k - j) <= Iterate(step, start, k)
    decreases k - j
  {
    if j < k {
      IterateIncreases(step, start, j, k - 1);
    }
  }

  lemma {:induction false} ChainContiguous(step: Stepper, start: Time, count: nat)
    requires Advances(step)
    ensures Contiguous(Chain(step, start, count))
  {
  }

  /** The periods are contiguous, non-empty and increasing; only the last contains `t`,
      and they start at the anchor unless the anchor lies after `t`. */
  lemma {:induction false} PeriodsCoverInstant(step: Stepper, back: Stepper, anchor: Time, t: Time)
    requires Advances(step) && Retreats(back)
    ensures var ps := PeriodsAt(step, back, anchor, t);
            && Contiguous(ps)
            && (forall i :: 0 <= i < |ps| ==> (ps[i].from <= t < ps[i].to <==> i == |ps| - 1))
            && (anchor <= t ==> ps[0].from == anchor)
  {
    var start := Rewind(back, anchor, t);
    var count := Count(step, start, t, 0);
    var ps := PeriodsAt(step, back, anchor, t);
    ChainContiguous(step, start, count);
    hide Contiguous, Advances, Retreats, Rewind, Count;
    forall i | 0 <= i < |ps|
      ensures ps[i].from <= t < ps[i].to <==> i == |ps| - 1
    {
      if i < |ps| - 1 {
        IterateIncreases(step, start, i + 1, count - 1);
      }
    }
  }

  lemma {:induction false} IterateFromNext(step: Stepper, base: Time, m: nat)
    ensures Iterate(step, step(base), m) == Iterate(step, base, m + 1)
  {
    if m > 0 {
      IterateFromNext(step, base, m - 1);
    }
  }

  /** Going back stops at the first instant that is not after `t`. */
  lemma {:induction false} RewindStops(back: Stepper, curr: Time, t: Time) returns (k: nat)
    requires Retreats(back)
    ensures Rewind(back, curr, t) == Iterate(back, curr, k)
    ensures forall j: nat :: j < k ==> Iterate(back, curr, j) > t
    decreases if curr > t then curr - t else 0
  {
    if curr > t {
      var rest := RewindStops(back, back(curr), t);
      k := rest + 1;
      IterateFromNext(back, curr, rest);
      forall j: nat | j < k
        ensures Iterate(back, curr, j) > t
      {
        if j > 0 {
          IterateFromNext(back, curr, j - 1);
        }
      }
    } else {
      k := 0;
    }
  }

  /** The first period starts at the first backward step from the anchor that is not after `t`, and
      every period is one step long, starting where as many steps from there lead. */
  lemma {:induction false} PeriodsAreSteps(step: Stepper, back: Stepper, anchor: Time, t: Time) returns (k: nat)
    requires Advances(step) && Retreats(back)
    ensures var ps := PeriodsAt(step, back, anchor, t);
            && ps[0].from == Iterate(back, anchor, k) <= t
            && (forall j: nat :: j < k ==> Iterate(back, anchor, j) > t)
            && forall i :: 0 <= i < |ps| ==>
                 ps[i] == Period(Iterate(step, ps[0].from, i), Iterate(step, ps[0].from, i + 1))
  {
    k := RewindStops(back, anchor, t);
  }

  lemma {:induction false} ChainPrefix(step: Stepper, start: Time, fewer: nat, more: nat)
    requires fewer <= more
    ensures Chain(step, start, fewer) == Chain(step, start, more)[..fewer]
  {
  }

  lemma {:induction false} ChainGrows(step: Stepper, start: Time, count: nat)
    ensures Chain(step, start, count + 1)
            == Chain(step, start, count) + [Period(Iterate(step, start, count), Iterate(step, start, count + 1))]
  {
  }

  /** A later read walks through the same periods first. */
  lemma {:induction false} PeriodsExtend(step: Stepper, back: Stepper, anchor: Time, t1: Time, t2: Time)
    requires Advances(step) && Retreats(back) && anchor <= t1 <= t2
    ensures PeriodsAt(step, back, anchor, t1) <= PeriodsAt(step, back, anchor, t2)
  {
    var c1, c2 := Count(step, anchor, t1, 0), Count(step, anchor, t2, 0);
    if c2 < c1 {
      IterateIncreases(step, anchor, c2, c1 - 1);
    }
    ChainPrefix(step, anchor, c1, c2);
  }

  /** Later periods start at later instants. */
  lemma {:induction false} StartsIncrease(periods: seq<Period>, i: nat, j: nat)
    requires Contiguous(periods) && i < j < |periods|
    ensures periods[i].to <= periods[j].from && periods[i].from < periods[j].from
    decreases j - i
  {
    assert periods[j - 1].to == periods[j].from;
    if i + 1 < j {
      StartsIncrease(periods, i, j - 1);
    }
  }

  lemma {:induction false} Stalls(step: Stepper, start: Time, k: nat)
    ensures (forall t: Time :: step(t) <= t) ==> Iterate(step, start, k) <= start
    ensures (forall t: Time :: step(t) >= t) ==> Iterate(step, start, k) >= start
  {
    if k > 0 {
      Stalls(step, start, k - 1);
    }
  }

  lemma {:induction false} AdvancesFrom(step: Stepper, start: Time, k: nat)
    requires Advances(step)
    ensures Iterate(step, start, k) >= start + k
  {
    IterateIncreases(step, start, 0, k);
  }

  lemma {:induction false} IterateDecreases(back: Stepper, start: Time, k: nat)
    requires Retreats(back)
    ensures Iterate(back, start, k) + k <= start
  {
    if k > 0 {
      IterateDecreases(back, start, k - 1);
    }
  }

  /** A duration that is not positive holds every walk back. */
  lemma {:induction false} NeverMoves(d: Duration, start: Time, k: nat)
    requires !d.Positive()
    ensures Iterate(Shifter(d, 1), start, k) <= start && Iterate(Shifter(d, -1), start, k) >= start
  {
    var step, back := Shifter(d, 1), Shifter(d, -1);
    forall u: Time ensures step(u) <= u && back(u) >= u { ShiftDirection(u, d); }
    hide Shifter;
    Stalls(step, start, k);
    Stalls(back, start, k);
  }

  /** The forward loop comes to an end exactly for positive durations: a zero or
      negative one never steps past `t`. */
  lemma {:induction false} ForwardLoopEnds(d: Duration, start: Time, t: Time)
    requires start <= t
    ensures (exists k: nat :: Iterate(Shifter(d, 1), start, k) > t) <==> d.Positive()
  {
    hide Shifter, Iterate;
    if d.Positive() {
      PositiveSteps(d);
      AdvancesFrom(Shifter(d, 1), start, t - start + 1);
      assert Iterate(Shifter(d, 1), start, t - start + 1) > t;
    } else {
      forall k: nat ensures Iterate(Shifter(d, 1), start, k) <= start { NeverMoves(d, start, k); }
    }
  }

  /** So does the backward loop, which runs when the anchor lies after `t`. */
  lemma {:induction false} BackwardLoopEnds(d: Duration, start: Time, t: Time)
    requires start > t
    ensures (exists k: nat :: Iterate(Shifter(d, -1), start, k) <= t) <==> d.Positive()
  {
    hide Shifter, Iterate;
    if d.Positive() {
      PositiveStepsBack(d);
      IterateDecreases(Shifter(d, -1), start, start - t);
      assert Iterate(Shifter(d, -1), start, start - t) <= t;
    } else {
      forall k: nat ensures Iterate(Shifter(d, -1), start, k) >= start { NeverMoves(d, start, k); }
    }
  }

  /** The two loops of `buildPeriods`: back while the start is after `t`, then forward past `t`. */
  method WalkPeriods(step: Stepper, back: Stepper, anchor: Time, t: Time) returns (periods: seq<Period>)
    requires Advances(step) && Retreats(back)
    ensures periods == PeriodsAt(step, back, anchor, t)
  {
    periods := [];
    var curr := anchor;
    while curr > t
      invariant Rewind(back, curr, t) == Rewind(back, anchor, t)
      decreases curr - t
    {
      curr := back(curr);
    }
    ghost var start := curr;
    var searching := true;
    while searching
      invariant searching ==> curr == Iterate(step, start, |periods|) && curr <= t
      invariant searching ==> Count(step, start, t, |periods|) == Count(step, start, t, 0)
      invariant !searching ==> |periods| == Count(step, start, t, 0)
      invariant periods == Chain(step, start, |periods|)
      decreases searching, t - curr
    {
      ChainGrows(step, start, |periods|);
      var next := step(curr);
      periods := periods + [Period(curr, next)];
      if next <= t {
        curr := next;
      } else {
        searching := false;
      }
    }
  }

  /** `buildPeriods`. A duration that does not move forward would never end the loops. */
  method BuildPeriods(anchor: Time, d: Duration, t: Time) returns (periods: seq<Period>)
    requires d.Positive()
    ensures Advances(Shifter(d, 1)) && Retreats(Shifter(d, -1))
    ensures periods == PeriodsAt(Shifter(d, 1), Shifter(d, -1), anchor, t)
  {
    PositiveSteps(d);
    PositiveStepsBack(d);
    periods := WalkPeriods(Shifter(d, 1), Shifter(d, -1), anchor, t);
  }
}
