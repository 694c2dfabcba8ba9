/** What `CalculateBalance` answers, for every entitlement: with and without a usage period, for any
    meter and for the one that counts the event log. */
module Answers {
  import opened Options
  import opened Calendar
  import opened Periods
  import opened Ledger
  import opened Burning
  import opened Stateless
  import opened Soundness
  import opened Dominance
  import opened PerGrant
  import opened UsageEvents
  import SnapshotCache
  import EntitlementService

  // ---- Without a usage period ----

  /** The credit in effect at `t` and not yet expired. */
  function CreditAt(grants: seq<Grant>, t: Time): int {
    if grants == [] then 0
    else
      var g := grants[|grants| - 1];
      CreditAt(grants[..|grants| - 1], t)
      + if g.effectiveAt <= t && (g.expiresAt.Some? ==> t < g.expiresAt.value) then g.amount else 0
  }

  lemma {:induction false} CreditIsLive(grants: seq<Grant>, t: Time)
    ensures CreditAt(grants, t) == LiveTotal(grants, t)
  {
    if grants != [] {
      var front, g := grants[..|grants| - 1], grants[|grants| - 1];
      CreditIsLive(front, t);
      SumPush(LiveGrants(front, t), Active(g, g.amount));
      hide Sum;
    }
  }

  /** `r` sets `usage` off against `credit`. Usage that is not positive takes nothing and is itself
      handed back as the overage. */
  predicate SetsOff(r: BalanceResult, credit: int, usage: int) {
    && r.usage == usage
    && r.balance == (if usage <= 0 then credit else if usage < credit then credit - usage else 0)
    && r.overage == (if usage <= 0 then usage else if usage > credit then usage - credit else 0)
    && (r.hasAccess <==> r.balance > 0)
  }

  /** Without a usage period, or with one that does not parse, all usage since the entitlement was
      created is set off against the credit of the instant. No period, no reset, no snapshot, and no
      regard to a seed. */
  lemma {:induction false} AnswerWithoutPeriod(inp: Inputs, ent: Entitlement, t: Time, seed: Option<Snapshot>)
    requires Sorts(inp.sort) && Amounts(inp.grants) && !ent.usagePeriod.Every?
    ensures var (r, snaps) := Calculate(inp, ent, t, seed);
            && SetsOff(r, CreditAt(inp.grants, t), inp.usage(ent.createdAt, t))
            && r.period.None? && r.lastReset.None? && snaps == []
  {
    var usage := inp.usage(ent.createdAt, t);
    CreditIsLive(inp.grants, t);
    if usage > 0 {
      StatelessClosedForm(inp, t, usage);
    } else {
      SumPermutes(LiveGrants(inp.grants, t), inp.sort(LiveGrants(inp.grants, t)));
    }
  }

  // ---- With one ----

  /** With a usage period, from the anchor or from any seed: the period is the one that holds the
      instant, one shift long; only the usage since its start counts; access is credit. */
  lemma {:induction false} AnswerWithPeriod(inp: Inputs, ent: Entitlement, t: Time, seed: Option<Snapshot>)
    requires ent.usagePeriod.Every? && ent.usagePeriod.duration.Positive()
    ensures var r := Calculate(inp, ent, t, seed).0;
            && r.period.Some? && r.period.value.from <= t < r.period.value.to
            && r.period.value.to == ShiftTime(r.period.value.from, ent.usagePeriod.duration, 1)
            && r.lastReset == Some(r.period.value.from)
            && r.usage == inp.usage(r.period.value.from, t)
            && (r.hasAccess <==> r.balance > 0)
  {
    var d := ent.usagePeriod.duration;
    PositiveSteps(d);
    PositiveStepsBack(d);
    PeriodsCoverInstant(Shifter(d, 1), Shifter(d, -1), ent.Anchor(), t);
    var k := PeriodsAreSteps(Shifter(d, 1), Shifter(d, -1), ent.Anchor(), t);
    hide PeriodsAt, Beginning, Spend, StateAt, Captured, ShiftTime;
  }

  /** Where the periods start: at the entitlement's anchor, or at its creation when it has none, and
      otherwise at the first step back from there that is not after the instant. */
  lemma {:induction false} PeriodsStartAt(ent: Entitlement, t: Time) returns (ps: seq<Period>, k: nat)
    requires ent.usagePeriod.Every? && ent.usagePeriod.duration.Positive()
    ensures var d := ent.usagePeriod.duration;
            var anchor := if ent.anchor.Some? then ent.anchor.value else ent.createdAt;
            && |ps| > 0 && Contiguous(ps) && ps[|ps| - 1].from <= t < ps[|ps| - 1].to
            && ps[0].from == Iterate(Shifter(d, -1), anchor, k) <= t
            && (forall j: nat :: j < k ==> Iterate(Shifter(d, -1), anchor, j) > t)
            && (forall i :: 0 <= i < |ps| ==> ps[i] == Period(ps[i].from, ShiftTime(ps[i].from, d, 1)))
            && forall inp, seed :: Calculate(inp, ent, t, seed) == Periodic(inp, ps, t, seed)
  {
    var d := ent.usagePeriod.duration;
    PositiveSteps(d);
    PositiveStepsBack(d);
    ps := PeriodsAt(Shifter(d, 1), Shifter(d, -1), ent.Anchor(), t);
    k := PeriodsAreSteps(Shifter(d, 1), Shifter(d, -1), ent.Anchor(), t);
    PeriodsCoverInstant(Shifter(d, 1), Shifter(d, -1), ent.Anchor(), t);
    hide PeriodsAt, Periodic, ShiftTime, Contiguous;
  }

  /** The whole of `CalculateBalance` from the anchor, grant by grant. */
  lemma {:induction false} AnswerTold(inp: Inputs, ent: Entitlement, t: Time) returns (ps: seq<Period>, k: nat)
    requires WellFormed(inp) && KeysApart(inp.grants)
    requires ent.usagePeriod.Every? && ent.usagePeriod.duration.Positive()
    ensures var d := ent.usagePeriod.duration;
            var anchor := if ent.anchor.Some? then ent.anchor.value else ent.createdAt;
            && |ps| > 0 && Contiguous(ps) && ps[|ps| - 1].from <= t < ps[|ps| - 1].to
            && ps[0].from == Iterate(Shifter(d, -1), anchor, k) <= t
            && (forall j: nat :: j < k ==> Iterate(Shifter(d, -1), anchor, j) > t)
            && (forall i :: 0 <= i < |ps| ==> ps[i] == Period(ps[i].from, ShiftTime(ps[i].from, d, 1)))
    ensures var (answer, snaps) := Calculate(inp, ent, t, None);
            && answer == Told(inp, ps, t) && |snaps| == |ps| - 1
            && forall j :: 0 <= j < |snaps| ==> Tells(snaps[j], inp, ps, j + 1)
  {
    ps, k := PeriodsStartAt(ent, t);
    hide Calculate, Periodic, Told, Tells, ShiftTime;
    ReplayTells(inp, ps, t);
  }

  // ---- Served from the cache ----

  /** While no boundary drains an unexpired grant, after any history of values and saves every value
      is told grant by grant, over the periods from the anchor. */
  lemma {:induction false} ServedAsTold(inp: Inputs, ent: Entitlement, requests: seq<EntitlementService.Request>,
                                        t: Time)
    returns (ps: seq<Period>)
    requires EntitlementService.Metered(inp, ent) && KeysApart(inp.grants) && ent.Anchor() <= t
    requires SnapshotCache.NeverDrained(EntitlementService.SourceOf(inp, ent))
    ensures |ps| > 0 && Contiguous(ps) && ps[0].from == ent.Anchor() && ps[|ps| - 1].from <= t < ps[|ps| - 1].to
    ensures forall i :: 0 <= i < |ps| ==>
              ps[i] == Period(ps[i].from, ShiftTime(ps[i].from, ent.usagePeriod.duration, 1))
    ensures EntitlementService.Served(inp, ent, requests, t) == Told(inp, ps, t)
  {
    EntitlementService.ServedCoherently(inp, ent, requests, t);
    var k: nat;
    ps, k := AnswerTold(inp, ent, t);
    assert Iterate(Shifter(ent.usagePeriod.duration, -1), ent.Anchor(), 0) == ent.Anchor();
    hide EntitlementService.Served, Calculate, Told, ShiftTime, Iterate, SnapshotCache.NeverDrained;
    assert k == 0;
  }

  // ---- Counted from the event log ----

  /** The same with the meter a handler passes: events of the customer and the kind since the
      entitlement was created, up to the instant. */
  lemma {:induction false} LoggedWithoutPeriod(log: seq<Event>, customer: Id, m: MeterRow, grants: seq<Grant>,
                                               sort: Sorter, ent: Entitlement, t: Time, seed: Option<Snapshot>)
    requires Sorts(sort) && Amounts(grants) && !ent.usagePeriod.Every?
    ensures var (r, snaps) := Calculate(Inputs(grants, MeterOf(log, customer, m), sort), ent, t, seed);
            && SetsOff(r, CreditAt(grants, t),
                       if m.aggregation == SumOf(false) then 0 else Usage(log, customer, m, ent.createdAt, t))
            && r.period.None? && r.lastReset.None? && snaps == []
  {
    AnswerWithoutPeriod(Inputs(grants, MeterOf(log, customer, m), sort), ent, t, seed);
    hide Usage, Calculate, CreditAt, SetsOff, Sorts;
  }
}
