/** One worker at a time: each pass emits at most the next cycle of an entry, in order, until
    none is due; and exactly when no cycle is ever emitted twice. */
module CatchUp {
  import opened Options
  import opened Calendar
  import opened Periods
  import opened Tables
  import opened Materializing
  import opened Recurrence
  import opened Sequences

  // ---- The times already emitted ----

  lemma {:induction false} TimesContain(grants: seq<GrantRow>, sub: Id, ent: Id, i: nat)
    requires i < |grants| && EmittedFor(grants[i], sub, ent)
    ensures grants[i].effectiveAt in Times(grants, sub, ent)
  {
    var front := grants[..|grants| - 1];
    if i < |front| {
      assert front[i] == grants[i];
      TimesContain(front, sub, ent, i);
    }
  }

  lemma {:induction false} TimesAppend(grants: seq<GrantRow>, row: GrantRow, sub: Id, ent: Id)
    ensures Times(grants + [row], sub, ent)
            == Times(grants, sub, ent) + if EmittedFor(row, sub, ent) then [row.effectiveAt] else []
  {
  }

  /** Voiding hides a grant from balances, not from the dating of the next cycle. */
  lemma {:induction false} TimesIgnoreVoids(a: seq<GrantRow>, b: seq<GrantRow>, sub: Id, ent: Id)
    requires |a| == |b| && forall i :: 0 <= i < |a| ==> b[i] == a[i].(voidedAt := b[i].voidedAt)
    ensures Times(a, sub, ent) == Times(b, sub, ent)
  {
    if a != [] {
      TimesIgnoreVoids(a[..|a| - 1], b[..|b| - 1], sub, ent);
    }
  }

  predicate HasLive(grants: seq<GrantRow>, sub: Id, ent: Id, t: Time) {
    exists i :: 0 <= i < |grants| && EmittedFor(grants[i], sub, ent) && grants[i].effectiveAt == t
                && LiveGrant(grants[i])
  }

  lemma {:induction false} LiveInTimes(grants: seq<GrantRow>, sub: Id, ent: Id, t: Time)
    requires HasLive(grants, sub, ent, t)
    ensures t in Times(grants, sub, ent)
  {
    var i :| 0 <= i < |grants| && EmittedFor(grants[i], sub, ent) && grants[i].effectiveAt == t && LiveGrant(grants[i]);
    TimesContain(grants, sub, ent, i);
  }

  /** The entry has the same emitted times, live at the same times. */
  ghost predicate Untouched(before: seq<GrantRow>, after: seq<GrantRow>, sub: Id, ent: Id) {
    && Times(after, sub, ent) == Times(before, sub, ent)
    && forall t: Time :: HasLive(after, sub, ent, t) <==> HasLive(before, sub, ent, t)
  }

  // ---- One entry served by its plan ----

  function PlanOf(db: Db, sub: Id): Plan
    requires Recurring(db, sub)
  {
    db.plans[db.subs[sub].plan]
  }

  /** Entry `k` of the plan of active subscription `sub` feeds entitlement `ent` every `d`. */
  predicate Served(db: Db, sub: Id, ent: Id, k: nat, d: Duration) {
    && Recurring(db, sub)
    && PlanOf(db, sub).recurrence == Some(Valid(d))
    && Sellable(PlanOf(db, sub))
    && k < |PlanOf(db, sub).entries|
    && PlanOf(db, sub).entries[k].grant.Some?
    && PlanOf(db, sub).entries[k].feature < |db.features|
    && FindEnt(db.ents, db.subs[sub].customer, PlanOf(db, sub).entries[k].feature) == Some(ent)
  }

  /** In a sellable plan no other entry grants the same feature. */
  lemma {:induction false} EntriesApart(entries: seq<PlanEntry>, j: nat, k: nat)
    requires FeaturesApart(GrantBearing(entries)) && j < k < |entries|
    requires entries[j].grant.Some? && entries[k].grant.Some?
    ensures entries[j].feature != entries[k].feature
  {
    var front := entries[..|entries| - 1];
    var asked := GrantBearing(front);
    assert front[j] == entries[j];
    if k < |front| {
      assert front[k] == entries[k];
      assert FeaturesApart(asked) by {
        assert forall i :: 0 <= i < |asked| ==> GrantBearing(entries)[i] == asked[i];
      }
      EntriesApart(front, j, k);
    } else {
      BearingHas(front, j);
      var i :| 0 <= i < |asked| && asked[i] == entries[j];
      assert GrantBearing(entries) == asked + [entries[k]];
      assert GrantBearing(entries)[i] == entries[j] && GrantBearing(entries)[|asked|] == entries[k];
    }
  }

  lemma {:induction false} AmountPositive(entries: seq<PlanEntry>, k: nat)
    requires k < |entries| && entries[k].grant.Some?
    requires forall i :: 0 <= i < |GrantBearing(entries)| ==>
               GrantBearing(entries)[i].grant.Some? && GrantBearing(entries)[i].grant.value.amount > 0
    ensures entries[k].grant.value.amount > 0
  {
    BearingHas(entries, k);
    var i :| 0 <= i < |GrantBearing(entries)| && GrantBearing(entries)[i] == entries[k];
  }

  /** What one pass adds for this entry: the next cycle, if it is due and has no live grant. */
  function NextDue(db: Db, sub: Id, ent: Id, d: Duration, now: Time): seq<Time>
    requires sub < |db.subs|
  {
    var next := WorkerShifter(d)(BaseTime(db, sub, ent));
    if next <= now && !HasLive(db.grants, sub, ent, next) then [next] else []
  }

  /** Unless the interval is empty, the next cycle is later than all emitted, so it has no grant. */
  lemma {:induction false} DueIsFree(db: Db, sub: Id, ent: Id, d: Duration, now: Time)
    requires sub < |db.subs| && d.NonZero()
    ensures var next := WorkerShifter(d)(BaseTime(db, sub, ent));
            && next !in Times(db.grants, sub, ent)
            && NextDue(db, sub, ent, d, now) == if next <= now then [next] else []
  {
    WorkerSteps(d);
    var next := WorkerShifter(d)(BaseTime(db, sub, ent));
    if HasLive(db.grants, sub, ent, next) {
      LiveInTimes(db.grants, sub, ent, next);
    }
    hide Times, WorkerShifter, HasLive;
    assert next > BaseTime(db, sub, ent);
  }

  /** The emission index refuses a row exactly where a live grant of the same time stands. */
  lemma {:induction false} ClashIffLive(grants: seq<GrantRow>, row: GrantRow, sub: Id, ent: Id)
    requires EmittedFor(row, sub, ent) && LiveGrant(row)
    ensures GrantClash(grants, row) <==> HasLive(grants, sub, ent, row.effectiveAt)
  {
    if HasLive(grants, sub, ent, row.effectiveAt) {
      var i :| 0 <= i < |grants| && EmittedFor(grants[i], sub, ent) && grants[i].effectiveAt == row.effectiveAt
               && LiveGrant(grants[i]);
      assert SameEmission(grants[i], row);
    }
  }

  /** Emitting for the entry itself: one new time exactly when one is due and has no live grant. */
  lemma {:induction false} EmitsNext(db: Db, sub: Id, ent: Id, k: nat, d: Duration, now: Time)
    requires Served(db, sub, ent, k, d)
    ensures Times(Emit(db, sub, PlanOf(db, sub).entries[k], d, now).grants, sub, ent)
            == Times(db.grants, sub, ent) + NextDue(db, sub, ent, d, now)
  {
    var row := Prepare(db, sub, PlanOf(db, sub).entries[k], d, now);
    hide Times, GrantClash, HasLive, WorkerShifter;
    AmountPositive(PlanOf(db, sub).entries, k);
    if row.Some? {
      ClashIffLive(db.grants, row.value, sub, ent);
      TimesAppend(db.grants, row.value, sub, ent);
    }
  }

  lemma {:induction false} LiveAppend(grants: seq<GrantRow>, row: GrantRow, sub: Id, ent: Id)
    requires !EmittedFor(row, sub, ent)
    ensures forall t: Time :: HasLive(grants + [row], sub, ent, t) <==> HasLive(grants, sub, ent, t)
  {
    forall t: Time
      ensures HasLive(grants + [row], sub, ent, t) <==> HasLive(grants, sub, ent, t)
    {
      if i :| 0 <= i < |grants| && EmittedFor(grants[i], sub, ent) && grants[i].effectiveAt == t
              && LiveGrant(grants[i]) {
        assert (grants + [row])[i] == grants[i];
      }
    }
  }

  /** Emitting for anything else leaves this entry alone. */
  lemma {:induction false} EmitsElsewhere(db: Db, other: Id, pe: PlanEntry, d: Duration, now: Time, sub: Id, ent: Id)
    requires other < |db.subs| && ent < |db.ents|
    requires other != sub || pe.grant.None? || db.ents[ent].feature != pe.feature
    ensures Untouched(db.grants, Emit(db, other, pe, d, now).grants, sub, ent)
  {
    var row := Prepare(db, other, pe, d, now);
    if row.Some? {
      TimesAppend(db.grants, row.value, sub, ent);
      LiveAppend(db.grants, row.value, sub, ent);
    }
    hide Times, HasLive, GrantClash, WorkerShifter, BaseTime;
  }

  lemma {:induction false} SameBase(db: Db, mid: Db, sub: Id, ent: Id, d: Duration, now: Time)
    requires sub < |db.subs| && mid.subs == db.subs && Untouched(db.grants, mid.grants, sub, ent)
    ensures NextDue(mid, sub, ent, d, now) == NextDue(db, sub, ent, d, now)
  {
    hide HasLive, Times, WorkerShifter;
  }

  lemma {:induction false} OtherEntry(db: Db, sub: Id, ent: Id, k: nat, d: Duration, j: nat)
    requires Served(db, sub, ent, k, d) && j < |PlanOf(db, sub).entries| && j != k
    ensures var pe := PlanOf(db, sub).entries[j];
            ent < |db.ents| && (pe.grant.None? || db.ents[ent].feature != pe.feature)
  {
    var entries := PlanOf(db, sub).entries;
    if entries[j].grant.Some? {
      if j < k {
        EntriesApart(entries, j, k);
      } else {
        EntriesApart(entries, k, j);
      }
    }
  }

  lemma {:induction false} EmitAllNext(db: Db, sub: Id, ent: Id, k: nat, d: Duration, now: Time, n: nat)
    requires Served(db, sub, ent, k, d) && n <= |PlanOf(db, sub).entries|
    ensures var after := EmitAll(db, sub, PlanOf(db, sub).entries[..n], d, now).grants;
            if k < n then Times(after, sub, ent) == Times(db.grants, sub, ent) + NextDue(db, sub, ent, d, now)
            else Untouched(db.grants, after, sub, ent)
  {
    hide Times, Emit, Sellable, NextDue, HasLive;
    var entries := PlanOf(db, sub).entries;
    if n > 0 {
      assert entries[..n][..n - 1] == entries[..n - 1];
      EmitAllNext(db, sub, ent, k, d, now, n - 1);
      var mid := EmitAll(db, sub, entries[..n - 1], d, now);
      if n - 1 == k {
        EmitsNext(mid, sub, ent, k, d, now);
        SameBase(db, mid, sub, ent, d, now);
      } else {
        OtherEntry(db, sub, ent, k, d, n - 1);
        EmitsElsewhere(mid, sub, entries[n - 1], d, now, sub, ent);
      }
    }
  }

  lemma {:induction false} EmitAllElsewhere(db: Db, other: Id, entries: seq<PlanEntry>, d: Duration, now: Time,
      sub: Id, ent: Id)
    requires other < |db.subs| && other != sub && ent < |db.ents|
    ensures Untouched(db.grants, EmitAll(db, other, entries, d, now).grants, sub, ent)
  {
    hide Times, Emit, HasLive;
    if entries != [] {
      EmitAllElsewhere(db, other, entries[..|entries| - 1], d, now, sub, ent);
      var mid := EmitAll(db, other, entries[..|entries| - 1], d, now);
      EmitsElsewhere(mid, other, entries[|entries| - 1], d, now, sub, ent);
    }
  }

  lemma {:induction false} ServeAllNext(db: Db, subs: seq<Id>, sub: Id, ent: Id, k: nat, d: Duration, now: Time)
    requires Served(db, sub, ent, k, d) && Increasing(subs) && forall s: Id :: s in subs ==> Recurring(db, s)
    ensures var after := ServeAll(db, subs, now).grants;
            if sub in subs then Times(after, sub, ent) == Times(db.grants, sub, ent) + NextDue(db, sub, ent, d, now)
            else Untouched(db.grants, after, sub, ent)
  {
    hide Times, EmitAll, Sellable, NextDue, HasLive;
    if subs != [] {
      var front, last := subs[..|subs| - 1], subs[|subs| - 1];
      assert forall s: Id :: s in front ==> s in subs;
      assert last in subs && last !in front;
      ServeAllNext(db, front, sub, ent, k, d, now);
      var mid := ServeAll(db, front, now);
      assert Recurring(db, last);
      var plan := db.plans[db.subs[last].plan];
      if last == sub {
        SameBase(db, mid, sub, ent, d, now);
        EmitAllNext(mid, sub, ent, k, d, now, |plan.entries|);
        assert plan.entries[..|plan.entries|] == plan.entries;
      } else {
        assert sub in subs <==> sub in front;
        if plan.recurrence.value.Valid? {
          EmitAllElsewhere(mid, last, plan.entries, plan.recurrence.value.duration, now, sub, ent);
        }
      }
    }
  }

  /** One pass adds the next cycle when it is due and free, and nothing else, to this entry. */
  lemma {:induction false} PassEmitsNext(db: Db, sub: Id, ent: Id, k: nat, d: Duration, now: Time)
    requires Served(db, sub, ent, k, d)
    ensures Times(Pass(db, now).grants, sub, ent) == Times(db.grants, sub, ent) + NextDue(db, sub, ent, d, now)
    ensures Served(Pass(db, now), sub, ent, k, d)
  {
    hide Times, Sellable, NextDue, ServeAll;
    ListedIsRecurring(db, |db.subs|);
    ServeAllNext(db, Listed(db, |db.subs|), sub, ent, k, d, now);
  }

  // ---- Chains of cycles ----

  /** The first `m` cycles after `base`. */
  function Cycles(step: Stepper, base: Time, m: nat): (times: seq<Time>)
    ensures |times| == m
  {
    seq(m, (i: int) requires 0 <= i => Iterate(step, base, i + 1))
  }

  lemma {:induction false} CyclesGrow(step: Stepper, base: Time, m: nat)
    ensures Cycles(step, base, m + 1) == Cycles(step, base, m) + [Iterate(step, base, m + 1)]
  {
  }

  /** How many cycles after `base` are due by `now`. */
  function DueCycles(step: Stepper, base: Time, now: Time): (n: nat)
    requires Advances(step)
    decreases if base < now then now - base else 0
  {
    if step(base) <= now then 1 + DueCycles(step, step(base), now) else 0
  }

  /** Cycle m is due exactly when m is at most the count. */
  lemma {:induction false} DueCyclesCount(step: Stepper, base: Time, now: Time, m: nat)
    requires Advances(step) && m > 0
    ensures Iterate(step, base, m) <= now <==> m <= DueCycles(step, base, now)
    decreases m
  {
    if step(base) <= now {
      if m > 1 {
        DueCyclesCount(step, step(base), now, m - 1);
        IterateFromNext(step, base, m - 1);
      } else {
        assert Iterate(step, base, 1) == step(Iterate(step, base, 0));
      }
    } else {
      IterateIncreases(step, base, 1, m);
      assert Iterate(step, base, 1) == step(Iterate(step, base, 0));
    }
  }

  /** A history whose latest time is `base`, continued by `m` cycles, ends at cycle m. */
  lemma {:induction false} LatestOfChain(times: seq<Time>, step: Stepper, base: Time, m: nat)
    requires Advances(step) && times + Cycles(step, base, m) != []
    requires times != [] ==> Greatest(times) == base
    ensures Greatest(times + Cycles(step, base, m)) == Iterate(step, base, m)
  {
    var all := times + Cycles(step, base, m);
    IterateIncreases(step, base, 0, m);
    forall t | t in Cycles(step, base, m)
      ensures t <= Iterate(step, base, m)
    {
      var i :| 0 <= i < m && Cycles(step, base, m)[i] == t;
      IterateIncreases(step, base, i + 1, m);
    }
    hide Advances;
    if m > 0 {
      assert all[|all| - 1] == Iterate(step, base, m);
    } else {
      assert all == times;
    }
  }

  /** The state of an entry after some cycles: its history, and what the next is dated off. */
  predicate Caught(db: Db, sub: Id, ent: Id, step: Stepper, history: seq<Time>, base: Time, m: nat)
    requires sub < |db.subs|
  {
    && Times(db.grants, sub, ent) == history + Cycles(step, base, m)
    && BaseTime(db, sub, ent) == Iterate(step, base, m)
  }

  lemma {:induction false} CaughtFromTimes(db: Db, sub: Id, ent: Id, step: Stepper, history: seq<Time>, base: Time,
                                           m: nat)
    requires Advances(step) && sub < |db.subs|
    requires Times(db.grants, sub, ent) == history + Cycles(step, base, m)
    requires base == if history == [] then db.subs[sub].startsAt else Greatest(history)
    ensures Caught(db, sub, ent, step, history, base, m)
  {
    if history + Cycles(step, base, m) != [] {
      LatestOfChain(history, step, base, m);
    }
  }

  lemma {:induction false} DueIsNextCycle(db: Db, sub: Id, ent: Id, d: Duration, now: Time, history: seq<Time>,
                                          base: Time, m: nat)
    requires sub < |db.subs| && d.NonZero() && Caught(db, sub, ent, WorkerShifter(d), history, base, m)
    ensures var next := Iterate(WorkerShifter(d), base, m + 1);
            NextDue(db, sub, ent, d, now) == if next <= now then [next] else []
  {
    DueIsFree(db, sub, ent, d, now);
    hide Times, NextDue, BaseTime, WorkerShifter, Cycles;
  }

  lemma {:induction false} GrowsByDue(history: seq<Time>, step: Stepper, base: Time, m: nat, now: Time)
    ensures var next := Iterate(step, base, m + 1);
            history + Cycles(step, base, m) + (if next <= now then [next] else [])
            == history + Cycles(step, base, if next <= now then m + 1 else m)
  {
    CyclesGrow(step, base, m);
    hide Cycles, Iterate;
  }

  /** A pass takes an entry from cycle m to cycle m + 1 if that is due, else leaves it. */
  lemma {:induction false} PassAdvances(db: Db, sub: Id, ent: Id, k: nat, d: Duration, now: Time,
                                        history: seq<Time>, base: Time, m: nat)
    requires Served(db, sub, ent, k, d) && d.NonZero() && Caught(db, sub, ent, WorkerShifter(d), history, base, m)
    requires base == if history == [] then db.subs[sub].startsAt else Greatest(history)
    ensures var step := WorkerShifter(d);
            var due := Iterate(step, base, m + 1) <= now;
            Caught(Pass(db, now), sub, ent, step, history, base, if due then m + 1 else m)
    ensures Served(Pass(db, now), sub, ent, k, d)
  {
    var step := WorkerShifter(d);
    WorkerSteps(d);
    PassEmitsNext(db, sub, ent, k, d, now);
    DueIsNextCycle(db, sub, ent, d, now, history, base, m);
    GrowsByDue(history, step, base, m, now);
    hide WorkerShifter, Times, Served, Pass, NextDue, Cycles, Advances, Greatest, Iterate, BaseTime;
    var next := if Iterate(step, base, m + 1) <= now then m + 1 else m;
    CaughtFromTimes(Pass(db, now), sub, ent, step, history, base, next);
  }

  function Passes(db: Db, now: Time, n: nat): (r: Db)
    ensures r.subs == db.subs
  {
    if n == 0 then db else Pass(Passes(db, now, n - 1), now)
  }

  function Min(a: nat, b: nat): nat { if a < b then a else b }

  lemma {:induction false} CaughtNow(db: Db, sub: Id, ent: Id, step: Stepper)
    requires sub < |db.subs|
    ensures Caught(db, sub, ent, step, Times(db.grants, sub, ent), BaseTime(db, sub, ent), 0)
  {
  }

  lemma {:induction false} BaseIs(db: Db, sub: Id, ent: Id)
    requires sub < |db.subs|
    ensures var history := Times(db.grants, sub, ent);
            BaseTime(db, sub, ent) == if history == [] then db.subs[sub].startsAt else Greatest(history)
  {
  }

  /** One more pass at the same `now`, towards the count of due cycles. */
  lemma {:induction false} PassTowardsDue(db: Db, sub: Id, ent: Id, k: nat, d: Duration, now: Time,
                                          history: seq<Time>, base: Time, n: nat)
    requires Served(db, sub, ent, k, d) && d.NonZero() && Advances(WorkerShifter(d))
    requires base == if history == [] then db.subs[sub].startsAt else Greatest(history)
    requires Caught(db, sub, ent, WorkerShifter(d), history, base, Min(n, DueCycles(WorkerShifter(d), base, now)))
    ensures Served(Pass(db, now), sub, ent, k, d)
    ensures Caught(Pass(db, now), sub, ent, WorkerShifter(d), history, base,
                   Min(n + 1, DueCycles(WorkerShifter(d), base, now)))
  {
    hide WorkerShifter, Caught, Served, Pass, DueCycles, Greatest;
    var m := Min(n, DueCycles(WorkerShifter(d), base, now));
    PassAdvances(db, sub, ent, k, d, now, history, base, m);
    DueCyclesCount(WorkerShifter(d), base, now, m + 1);
  }

  lemma {:induction false} PassesStep(db: Db, now: Time, n: nat)
    requires n > 0
    ensures Passes(db, now, n) == Pass(Passes(db, now, n - 1), now)
  {
  }

  /** After n passes at `now` the entry has been given the first min(n, N) of its N due cycles. */
  lemma {:induction false} PassesAdvance(db: Db, sub: Id, ent: Id, k: nat, d: Duration, now: Time,
                                         history: seq<Time>, base: Time, n: nat)
    requires Served(db, sub, ent, k, d) && d.NonZero() && Advances(WorkerShifter(d))
    requires base == if history == [] then db.subs[sub].startsAt else Greatest(history)
    requires Caught(db, sub, ent, WorkerShifter(d), history, base, 0)
    ensures Served(Passes(db, now, n), sub, ent, k, d)
    ensures Caught(Passes(db, now, n), sub, ent, WorkerShifter(d), history, base,
                   Min(n, DueCycles(WorkerShifter(d), base, now)))
  {
    hide WorkerShifter, Caught, Served, Pass, DueCycles, Greatest, Advances;
    if n > 0 {
      hide Passes;
      PassesStep(db, now, n);
      PassesAdvance(db, sub, ent, k, d, now, history, base, n - 1);
      PassTowardsDue(Passes(db, now, n - 1), sub, ent, k, d, now, history, base, n - 1);
    }
  }

  lemma {:induction false} AllDue(step: Stepper, base: Time, now: Time, m: nat)
    requires Advances(step) && m <= DueCycles(step, base, now)
    ensures forall i :: 0 <= i < m ==> Cycles(step, base, m)[i] <= now
  {
    forall i | 0 <= i < m
      ensures Cycles(step, base, m)[i] <= now
    {
      DueCyclesCount(step, base, now, i + 1);
    }
  }

  lemma {:induction false} NoneLeft(db: Db, sub: Id, ent: Id, d: Duration, now: Time, base: Time)
    requires Advances(WorkerShifter(d)) && sub < |db.subs|
    requires BaseTime(db, sub, ent) == Iterate(WorkerShifter(d), base, DueCycles(WorkerShifter(d), base, now))
    ensures NextDue(db, sub, ent, d, now) == []
  {
    hide BaseTime, WorkerShifter;
    DueCyclesCount(WorkerShifter(d), base, now, DueCycles(WorkerShifter(d), base, now) + 1);
  }

  /** Catch-up: with N cycles due, each of the first N passes at a fixed `now` emits exactly
      one grant for the entry, the cycles in order, and every later pass emits nothing. */
  lemma {:induction false} PassesCatchUp(db: Db, sub: Id, ent: Id, k: nat, d: Duration, now: Time, n: nat)
    requires Served(db, sub, ent, k, d) && d.NonZero()
    ensures Advances(WorkerShifter(d))
    ensures var step, base := WorkerShifter(d), BaseTime(db, sub, ent);
            var due := DueCycles(step, base, now);
            && Times(Passes(db, now, n).grants, sub, ent)
               == Times(db.grants, sub, ent) + Cycles(step, base, Min(n, due))
            && (forall i :: 0 <= i < Min(n, due) ==> Cycles(step, base, Min(n, due))[i] <= now)
            && (n >= due ==> NextDue(Passes(db, now, n), sub, ent, d, now) == [])
  {
    var step, base := WorkerShifter(d), BaseTime(db, sub, ent);
    WorkerSteps(d);
    var due := DueCycles(step, base, now);
    BaseIs(db, sub, ent);
    CaughtNow(db, sub, ent, step);
    PassesAdvance(db, sub, ent, k, d, now, Times(db.grants, sub, ent), base, n);
    hide Times, Served, Passes, BaseTime, WorkerShifter;
    AllDue(step, base, now, Min(n, due));
    if n >= due {
      NoneLeft(Passes(db, now, n), sub, ent, d, now, base);
    }
  }

  // ---- Passes and voids, one worker ----

  datatype Event = Tick(now: Time) | Voiding(grant: Id, at: Time)

  function Happen(db: Db, e: Event): Db {
    match e
    case Tick(now) => Pass(db, now)
    case Voiding(g, at) => Void(db, g, at)
  }

  function Unfold(db: Db, events: seq<Event>): Db {
    if events == [] then db else Happen(Unfold(db, events[..|events| - 1]), events[|events| - 1])
  }

  lemma {:induction false} VoidKeepsCaught(db: Db, grant: Id, at: Time, sub: Id, ent: Id)
    requires sub < |db.subs|
    ensures Times(Void(db, grant, at).grants, sub, ent) == Times(db.grants, sub, ent)
    ensures BaseTime(Void(db, grant, at), sub, ent) == BaseTime(db, sub, ent)
  {
    if grant < |db.grants| {
      TimesIgnoreVoids(db.grants, Void(db, grant, at).grants, sub, ent);
    }
  }

  /** No re-emission: under any mix of passes (at any times) and voids, an entry's history is
      continued by consecutive cycles, each once, voided or not. */
  lemma {:induction false} NeverReemits(db: Db, sub: Id, ent: Id, k: nat, d: Duration, events: seq<Event>)
    returns (m: nat)
    requires Served(db, sub, ent, k, d) && d.NonZero()
    ensures var later, base := Unfold(db, events), BaseTime(db, sub, ent);
            && later.subs == db.subs && Served(later, sub, ent, k, d)
            && Caught(later, sub, ent, WorkerShifter(d), Times(db.grants, sub, ent), base, m)
  {
    var step, base, history := WorkerShifter(d), BaseTime(db, sub, ent), Times(db.grants, sub, ent);
    WorkerSteps(d);
    if events == [] {
      m := 0;
      CaughtNow(db, sub, ent, step);
    } else {
      var before, last := events[..|events| - 1], events[|events| - 1];
      m := NeverReemits(db, sub, ent, k, d, before);
      var mid := Unfold(db, before);
      match last
      case Tick(now) =>
        PassAdvances(mid, sub, ent, k, d, now, history, base, m);
        m := if Iterate(step, base, m + 1) <= now then m + 1 else m;
      case Voiding(g, at) =>
        VoidKeepsCaught(mid, g, at, sub, ent);
    }
  }

  /** Consecutive cycles are strictly later and later, so none repeats. */
  lemma {:induction false} CyclesIncrease(step: Stepper, base: Time, m: nat, i: nat, j: nat)
    requires Advances(step) && i < j < m
    ensures base < Cycles(step, base, m)[i] < Cycles(step, base, m)[j]
  {
    IterateIncreases(step, base, 0, i + 1);
    IterateIncreases(step, base, i + 1, j + 1);
  }

  // ---- Exactly when no cycle repeats ----

  /** No two of the history and the cycles after it coincide. */
  lemma {:induction false} ContinuesWithoutRepeats(history: seq<Time>, step: Stepper, base: Time, m: nat)
    requires Advances(step) && NoRepeats(history) && (history != [] ==> Greatest(history) == base)
    ensures NoRepeats(history + Cycles(step, base, m))
  {
    var all := history + Cycles(step, base, m);
    forall i, j | 0 <= i < j < |all|
      ensures all[i] != all[j]
    {
      if j >= |history| {
        IterateIncreases(step, base, 0, j - |history| + 1);
        if i >= |history| {
          CyclesIncrease(step, base, m, i - |history|, j - |history|);
        } else {
          assert all[i] in history;
        }
      }
    }
  }

  lemma {:induction false} UnfoldAppend(db: Db, first: seq<Event>, second: seq<Event>)
    ensures Unfold(db, first + second) == Unfold(Unfold(db, first), second)
  {
    hide Happen;
    if second == [] {
      assert first + second == first;
    } else {
      UnfoldAppend(db, first, second[..|second| - 1]);
      assert (first + second)[..|first + second| - 1] == first + second[..|second| - 1];
    }
  }

  function VoidAll(n: nat, at: Time): seq<Event> {
    if n == 0 then [] else VoidAll(n - 1, at) + [Voiding(n - 1, at)]
  }

  lemma {:induction false} AllVoided(db: Db, n: nat, at: Time)
    requires n <= |db.grants|
    ensures var later := Unfold(db, VoidAll(n, at));
            && later == db.(grants := later.grants) && |later.grants| == |db.grants|
            && (forall i :: 0 <= i < n ==> !LiveGrant(later.grants[i]))
            && (forall i :: 0 <= i < |db.grants| ==>
                  later.grants[i] == db.grants[i].(voidedAt := later.grants[i].voidedAt))
  {
    if n > 0 {
      AllVoided(db, n - 1, at);
      assert VoidAll(n, at)[..|VoidAll(n, at)| - 1] == VoidAll(n - 1, at);
    }
  }

  /** Void every grant there is, then let a pass run at the time the next cycle is dated off. */
  function VoidThenPass(db: Db, base: Time): seq<Event> {
    VoidAll(|db.grants|, base) + [Tick(base)]
  }

  lemma {:induction false} PushBase(times: seq<Time>, base: Time)
    requires times != [] ==> Greatest(times) == base
    ensures Greatest(times + [base]) == base
  {
    assert (times + [base])[..|times|] == times;
  }

  /** With an empty interval the next cycle is the latest one over again. */
  lemma {:induction false} EmitsBaseAgain(db: Db, sub: Id, ent: Id, k: nat, d: Duration)
    requires Served(db, sub, ent, k, d) && !d.NonZero()
    ensures var base := BaseTime(db, sub, ent);
            var later := Unfold(db, VoidThenPass(db, base));
            && Times(later.grants, sub, ent) == Times(db.grants, sub, ent) + [base]
            && Served(later, sub, ent, k, d) && BaseTime(later, sub, ent) == base
  {
    var base, voids := BaseTime(db, sub, ent), VoidAll(|db.grants|, BaseTime(db, sub, ent));
    var voided := Unfold(db, voids);
    AllVoided(db, |db.grants|, base);
    TimesIgnoreVoids(db.grants, voided.grants, sub, ent);
    WorkerShiftDirection(base, d);
    assert Unfold(db, voids + [Tick(base)]) == Pass(voided, base) by {
      assert (voids + [Tick(base)])[..|voids|] == voids;
    }
    hide Times, WorkerShift, Pass, Unfold, VoidAll, Sellable, Greatest;
    assert !HasLive(voided.grants, sub, ent, base);
    PassEmitsNext(voided, sub, ent, k, d, base);
    PushBase(Times(db.grants, sub, ent), base);
  }

  lemma {:induction false} Repeats(history: seq<Time>, t: Time)
    ensures !NoRepeats(history + [t] + [t])
  {
    assert (history + [t] + [t])[|history|] == (history + [t] + [t])[|history| + 1];
  }

  /** One worker at a time, under any mix of passes and voids: no cycle of a served entry is ever
      emitted twice if and only if its interval is not empty. An empty one is accepted by
      CreatePlan and reaches the worker. */
  lemma {:induction false} OnceIffNonZero(db: Db, sub: Id, ent: Id, k: nat, d: Duration)
    requires Served(db, sub, ent, k, d) && NoRepeats(Times(db.grants, sub, ent))
    ensures (forall events :: NoRepeats(Times(Unfold(db, events).grants, sub, ent))) <==> d.NonZero()
  {
    var base, history := BaseTime(db, sub, ent), Times(db.grants, sub, ent);
    WorkerSteps(d);
    if d.NonZero() {
      forall events
        ensures NoRepeats(Times(Unfold(db, events).grants, sub, ent))
      {
        var m := NeverReemits(db, sub, ent, k, d, events);
        ContinuesWithoutRepeats(history, WorkerShifter(d), base, m);
      }
    } else {
      hide Times, Served, VoidThenPass, NoRepeats;
      var once := VoidThenPass(db, base);
      var later := Unfold(db, once);
      var again := once + VoidThenPass(later, base);
      EmitsBaseAgain(db, sub, ent, k, d);
      EmitsBaseAgain(later, sub, ent, k, d);
      UnfoldAppend(db, once, VoidThenPass(later, base));
      Repeats(history, base);
      assert !NoRepeats(Times(Unfold(db, again).grants, sub, ent));
    }
  }
}
