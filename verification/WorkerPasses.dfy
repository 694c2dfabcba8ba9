/** What a pass of the recurrence worker does, in the rows' own fields: which subscriptions it
    serves, which grants it adds, and what it does not look at. */
module WorkerPasses {
  import opened Options
  import opened Calendar
  import opened Tables
  import opened TableInvariants
  import opened Materializing
  import opened Recurrence
  import opened Lifecycle
  import opened CatchUp
  import opened Effects

  // ---- Which subscriptions ----

  /** Not cancelled, on a plan that exists, recurs and is not archived; nothing else is asked. */
  predicate Recurs(db: Db, sub: Id) {
    && sub < |db.subs| && db.subs[sub].canceledAt.None?
    && db.subs[sub].plan < |db.plans|
    && var plan := db.plans[db.subs[sub].plan];
       plan.recurrence.Some? && !plan.archived
  }

  /** A pass lists those subscriptions, each once, oldest first. */
  lemma {:induction false} PassLists(db: Db)
    ensures forall sub: Id :: sub in Listed(db, |db.subs|) <==> Recurs(db, sub)
    ensures forall i, j :: 0 <= i < j < |Listed(db, |db.subs|)| ==> Listed(db, |db.subs|)[i] < Listed(db, |db.subs|)[j]
  {
    ListedIsRecurring(db, |db.subs|);
  }

  // ---- What a cycle is dated off ----

  /** Row `g` is a grant of the subscription on the entitlement, voided or not. */
  predicate IsOf(g: GrantRow, sub: Id, ent: Id) {
    g.subscription == Some(sub) && g.entitlement == ent
  }

  /** The latest effective time among those grants, or the subscription's start if there is none. */
  predicate DatedOff(db: Db, sub: Id, ent: Id, base: Time)
    requires sub < |db.subs|
  {
    if exists i :: 0 <= i < |db.grants| && IsOf(db.grants[i], sub, ent)
    then && (exists i :: 0 <= i < |db.grants| && IsOf(db.grants[i], sub, ent) && db.grants[i].effectiveAt == base)
         && (forall i :: 0 <= i < |db.grants| && IsOf(db.grants[i], sub, ent) ==> db.grants[i].effectiveAt <= base)
    else base == db.subs[sub].startsAt
  }

  /** The emitted times are the effective times of those grants. */
  lemma {:induction false} TimesAre(grants: seq<GrantRow>, sub: Id, ent: Id, t: Time)
    ensures t in Times(grants, sub, ent)
            <==> exists i :: 0 <= i < |grants| && IsOf(grants[i], sub, ent) && grants[i].effectiveAt == t
  {
    if grants != [] {
      var front, last := grants[..|grants| - 1], grants[|grants| - 1];
      TimesAre(front, sub, ent, t);
      assert forall i :: 0 <= i < |front| ==> front[i] == grants[i];
      TimesAppend(front, last, sub, ent);
      assert front + [last] == grants;
      hide Times;
      assert IsOf(last, sub, ent) <==> EmittedFor(last, sub, ent);
    }
  }

  /** There is exactly one such time. */
  lemma {:induction false} DatedOffIsBase(db: Db, sub: Id, ent: Id, base: Time)
    requires sub < |db.subs|
    ensures DatedOff(db, sub, ent, base) <==> base == BaseTime(db, sub, ent)
  {
    var times := Times(db.grants, sub, ent);
    forall t: Time
      ensures t in times <==> exists i :: 0 <= i < |db.grants| && IsOf(db.grants[i], sub, ent)
                                          && db.grants[i].effectiveAt == t
    {
      TimesAre(db.grants, sub, ent, t);
    }
    hide Times;
    forall i | 0 <= i < |db.grants| && IsOf(db.grants[i], sub, ent)
      ensures db.grants[i].effectiveAt in times
    {
    }
    assert times != [] ==> times[0] in times;
  }

  // ---- One entry ----

  /** A live grant of the subscription on the entitlement stands at `t`. */
  predicate Standing(grants: seq<GrantRow>, sub: Id, ent: Id, t: Time) {
    exists i :: 0 <= i < |grants| && IsOf(grants[i], sub, ent) && grants[i].effectiveAt == t
                && grants[i].voidedAt.None?
  }

  /** The grant of an entry's cycle at `t`, made at `now`; it expires so long after `t`. */
  function CycleGrant(g: GrantTemplate, sub: Id, ent: Id, t: Time, now: Time): GrantRow {
    GrantRow(ent, g.amount, if g.priority.Some? then g.priority.value else 100, t, Expiring(g.expiration, t), now,
             None, Some(sub))
  }

  /** What the worker decides for an entry: nothing without a grant, a feature or a live
      entitlement, or before the next cycle; otherwise that cycle's grant. */
  lemma {:induction false} PrepareOutcome(db: Db, sub: Id, pe: PlanEntry, d: Duration, now: Time, ent: Id, base: Time)
    requires Consistent(db) && sub < |db.subs| && DatedOff(db, sub, ent, base)
    ensures var row := Prepare(db, sub, pe, d, now); var next := WorkerShift(base, d);
            if pe.grant.None? || pe.feature >= |db.features|
               || Lacks(db.ents, db.subs[sub].customer, pe.feature)
            then row.None?
            else ent < |db.ents| && Entitling(db.ents[ent], db.subs[sub].customer, pe.feature) ==>
              row == if next <= now then Some(CycleGrant(pe.grant.value, sub, ent, next, now)) else None
  {
    if ent < |db.ents| && Entitling(db.ents[ent], db.subs[sub].customer, pe.feature) {
      FoundIs(db.ents, db.subs[sub].customer, pe.feature, ent);
    }
    DatedOffIsBase(db, sub, ent, base);
    hide WorkerShift, BaseTime, DatedOff, Consistent;
  }

  lemma {:induction false} StandingIsLive(grants: seq<GrantRow>, sub: Id, ent: Id, t: Time)
    ensures Standing(grants, sub, ent, t) <==> HasLive(grants, sub, ent, t)
  {
    if Standing(grants, sub, ent, t) {
      var i :| 0 <= i < |grants| && IsOf(grants[i], sub, ent) && grants[i].effectiveAt == t
               && grants[i].voidedAt.None?;
      assert EmittedFor(grants[i], sub, ent) && LiveGrant(grants[i]);
    }
    if HasLive(grants, sub, ent, t) {
      var i :| 0 <= i < |grants| && EmittedFor(grants[i], sub, ent) && grants[i].effectiveAt == t
               && LiveGrant(grants[i]);
      assert IsOf(grants[i], sub, ent);
    }
  }

  /** A decided grant goes in unless a live one stands at its time, or its amount is refused. */
  lemma {:induction false} CommitOutcome(db: Db, row: GrantRow, sub: Id)
    requires row.subscription == Some(sub) && row.voidedAt.None?
    ensures Commit(db, row) == if row.amount > 0 && !Standing(db.grants, sub, row.entitlement, row.effectiveAt)
                               then db.(grants := db.grants + [row]) else db
  {
    ClashIffLive(db.grants, row, sub, row.entitlement);
    StandingIsLive(db.grants, sub, row.entitlement, row.effectiveAt);
    hide GrantClash, HasLive, Standing;
  }

  // ---- Served entries ----

  /** Entry `k` of the plan of a subscription that is served feeds `ent` every `d`. */
  predicate Feeds(db: Db, sub: Id, ent: Id, k: nat, d: Duration) {
    && Recurs(db, sub)
    && var plan := db.plans[db.subs[sub].plan];
       && plan.recurrence == Some(Valid(d)) && Sells(plan.entries)
       && k < |plan.entries| && plan.entries[k].grant.Some? && plan.entries[k].feature < |db.features|
       && ent < |db.ents| && Entitling(db.ents[ent], db.subs[sub].customer, plan.entries[k].feature)
  }

  lemma {:induction false} GrantingPrefix(entries: seq<PlanEntry>, n: nat, k: nat)
    requires k <= n <= |entries|
    ensures Granting(entries[..n], k) == Granting(entries, k)
  {
    if k > 0 {
      GrantingPrefix(entries, n, k - 1);
    }
  }

  lemma {:induction false} BearingIs(entries: seq<PlanEntry>, j: nat) returns (k: nat)
    requires j < |GrantBearing(entries)|
    ensures k < |entries| && entries[k] == GrantBearing(entries)[j] && entries[k].grant.Some?
    ensures Granting(entries, k) == j
  {
    var front := entries[..|entries| - 1];
    BearingCount(entries, |front|);
    if j < |GrantBearing(front)| {
      k := BearingIs(front, j);
      GrantingPrefix(entries, |front|, k);
    } else {
      k := |front|;
    }
  }

  lemma {:induction false} GrantingGrows(entries: seq<PlanEntry>, j: nat, k: nat)
    requires j < k <= |entries| && entries[j].grant.Some?
    ensures Granting(entries, j) < Granting(entries, k)
    decreases k
  {
    if j < k - 1 {
      GrantingGrows(entries, j, k - 1);
    }
  }

  lemma {:induction false} SellsIsSellable(plan: Plan)
    ensures Sells(plan.entries) <==> Sellable(plan)
  {
    var entries, asked := plan.entries, GrantBearing(plan.entries);
    if Sells(entries) {
      forall i, j | 0 <= i < j < |asked| ensures asked[i].feature != asked[j].feature {
        var a := BearingIs(entries, i);
        var b := BearingIs(entries, j);
        if b < a { GrantingGrows(entries, b, a); }
        hide GrantBearing, Granting;
      }
      forall i | 0 <= i < |asked| ensures asked[i].grant.Some? && asked[i].grant.value.amount > 0 {
        var a := BearingIs(entries, i);
      }
    }
    if Sellable(plan) {
      forall j, k | 0 <= j < k < |entries| && entries[j].grant.Some? && entries[k].grant.Some?
        ensures entries[j].feature != entries[k].feature
      {
        EntriesApart(entries, j, k);
      }
      forall k | 0 <= k < |entries| && entries[k].grant.Some? ensures entries[k].grant.value.amount > 0 {
        AmountPositive(entries, k);
      }
    }
  }

  /** In consistent tables `Served` says just this. */
  lemma {:induction false} FeedsIsServed(db: Db, sub: Id, ent: Id, k: nat, d: Duration)
    requires Consistent(db)
    ensures Feeds(db, sub, ent, k, d) <==> Served(db, sub, ent, k, d)
  {
    if Recurs(db, sub) {
      var plan := db.plans[db.subs[sub].plan];
      SellsIsSellable(plan);
      if ent < |db.ents| && k < |plan.entries|
         && Entitling(db.ents[ent], db.subs[sub].customer, plan.entries[k].feature) {
        FoundIs(db.ents, db.subs[sub].customer, plan.entries[k].feature, ent);
      }
    }
    hide Sells, Sellable, FindEnt, Consistent;
  }

  // ---- What a pass does not look at ----

  /** The tables differ in the end dates of subscriptions only. */
  predicate SameButEnds(a: Db, b: Db) {
    && b == a.(subs := b.subs) && |a.subs| == |b.subs|
    && forall i :: 0 <= i < |a.subs| ==> b.subs[i] == a.subs[i].(endsAt := b.subs[i].endsAt)
  }

  lemma {:induction false} SameEmit(a: Db, b: Db, sub: Id, pe: PlanEntry, d: Duration, now: Time)
    requires SameButEnds(a, b) && sub < |a.subs|
    ensures SameButEnds(Emit(a, sub, pe, d, now), Emit(b, sub, pe, d, now))
  {
    hide WorkerShifter, Times, Greatest, GrantClash, FindEnt;
    assert b.subs[sub] == a.subs[sub].(endsAt := b.subs[sub].endsAt);
  }

  lemma {:induction false} SameEmitAll(a: Db, b: Db, sub: Id, entries: seq<PlanEntry>, d: Duration, now: Time)
    requires SameButEnds(a, b) && sub < |a.subs|
    ensures SameButEnds(EmitAll(a, sub, entries, d, now), EmitAll(b, sub, entries, d, now))
  {
    assert sub < |b.subs|;
    hide Emit, SameButEnds;
    if entries != [] {
      var front, last := entries[..|entries| - 1], entries[|entries| - 1];
      SameEmitAll(a, b, sub, front, d, now);
      SameEmit(EmitAll(a, sub, front, d, now), EmitAll(b, sub, front, d, now), sub, last, d, now);
    }
  }

  lemma {:induction false} SameRecurring(a: Db, b: Db, sub: Id)
    requires SameButEnds(a, b)
    ensures Recurring(a, sub) <==> Recurring(b, sub)
    ensures sub < |a.subs| ==> a.subs[sub].plan == b.subs[sub].plan
  {
    if sub < |a.subs| {
      assert b.subs[sub] == a.subs[sub].(endsAt := b.subs[sub].endsAt);
    }
  }

  lemma {:induction false} SameServe(a: Db, b: Db, sub: Id, now: Time)
    requires SameButEnds(a, b) && Recurring(a, sub) && Recurring(b, sub)
    ensures SameButEnds(Serve(a, sub, now), Serve(b, sub, now))
  {
    SameRecurring(a, b, sub);
    var plan := a.plans[a.subs[sub].plan];
    if plan.recurrence.value.Valid? {
      SameEmitAll(a, b, sub, plan.entries, plan.recurrence.value.duration, now);
    }
    hide EmitAll;
  }

  lemma {:induction false} SameServeAll(a: Db, b: Db, subs: seq<Id>, now: Time)
    requires SameButEnds(a, b) && forall s: Id :: s in subs ==> Recurring(a, s) && Recurring(b, s)
    ensures SameButEnds(ServeAll(a, subs, now), ServeAll(b, subs, now))
  {
    hide Serve, SameButEnds;
    if subs != [] {
      var front, last := subs[..|subs| - 1], subs[|subs| - 1];
      assert last in subs && forall s: Id :: s in front ==> s in subs;
      SameServeAll(a, b, front, now);
      SameServe(ServeAll(a, front, now), ServeAll(b, front, now), last, now);
    }
  }

  lemma {:induction false} SameListed(a: Db, b: Db, n: nat)
    requires SameButEnds(a, b) && n <= |a.subs|
    ensures Listed(a, n) == Listed(b, n)
  {
    if n > 0 {
      SameListed(a, b, n - 1);
      SameRecurring(a, b, n - 1);
      hide Recurring;
    }
  }

  /** A pass adds the same grants whatever end dates the subscriptions carry. */
  lemma {:induction false} PassIgnoresEnds(a: Db, b: Db, now: Time)
    requires SameButEnds(a, b)
    ensures Pass(a, now).grants == Pass(b, now).grants
  {
    SameListed(a, b, |a.subs|);
    ListedIsRecurring(a, |a.subs|);
    ListedIsRecurring(b, |b.subs|);
    SameServeAll(a, b, Listed(a, |a.subs|), now);
    hide ServeAll, Listed, Recurring;
  }

  // ---- Every grant a pass adds ----

  /** `g` is the grant of the next cycle of entry `k` of a subscription that is served, dated off
      `base` and due by `now`. */
  predicate Emission(db: Db, sub: Id, k: nat, base: Time, now: Time, g: GrantRow) {
    && Recurs(db, sub) && DatedOff(db, sub, g.entitlement, base)
    && var plan := db.plans[db.subs[sub].plan];
       && plan.recurrence.value.Valid?
       && k < |plan.entries| && plan.entries[k].grant.Some? && plan.entries[k].feature < |db.features|
       && g.entitlement < |db.ents| && Entitling(db.ents[g.entitlement], db.subs[sub].customer, plan.entries[k].feature)
       && var next := WorkerShift(base, plan.recurrence.value.duration);
          next <= now && g == CycleGrant(plan.entries[k].grant.value, sub, g.entitlement, next, now)
  }

  ghost predicate IsEmission(db: Db, g: GrantRow, now: Time) {
    exists sub: Id, k: nat, base: Time :: Emission(db, sub, k, base, now, g)
  }

  /** Nothing but such grants has been added. */
  ghost predicate OnlyCycles(db: Db, after: Db, now: Time) {
    && after == db.(grants := after.grants) && |db.grants| <= |after.grants|
    && after.grants[..|db.grants|] == db.grants
    && forall i :: |db.grants| <= i < |after.grants| ==> IsEmission(db, after.grants[i], now)
  }

  /** Every plan that recurs for some subscription sells. */
  ghost predicate RecurringSell(db: Db) {
    forall sub: Id :: Recurs(db, sub) ==> Sells(db.plans[db.subs[sub].plan].entries)
  }

  /** As every reachable state's do. */
  lemma {:induction false} SoldPlansSell(db: Db)
    requires PlansSold(db)
    ensures RecurringSell(db)
  {
    hide Sells, Sellable;
    forall sub: Id | Recurs(db, sub)
      ensures Sells(db.plans[db.subs[sub].plan].entries)
    {
      SellsIsSellable(db.plans[db.subs[sub].plan]);
      assert ActiveSub(db.subs[sub]);
    }
  }

  lemma {:induction false} UntouchedChain(a: seq<GrantRow>, b: seq<GrantRow>, c: seq<GrantRow>, sub: Id, ent: Id)
    requires Untouched(a, b, sub, ent) && Untouched(b, c, sub, ent)
    ensures Untouched(a, c, sub, ent)
  {
    hide Times, HasLive;
  }

  /** While an entry's own grants are those of `db`, what is decided for it is its next cycle there. */
  lemma {:induction false} DecidesCycle(db: Db, mid: Db, sub: Id, ent: Id, k: nat, d: Duration, now: Time)
    requires Consistent(db) && Feeds(db, sub, ent, k, d) && mid == db.(grants := mid.grants)
    requires Untouched(db.grants, mid.grants, sub, ent)
    requires Prepare(mid, sub, PlanOf(db, sub).entries[k], d, now).Some?
    ensures Emission(db, sub, k, BaseTime(db, sub, ent), now,
                     Prepare(mid, sub, PlanOf(db, sub).entries[k], d, now).value)
  {
    var pe := PlanOf(db, sub).entries[k];
    FoundIs(db.ents, db.subs[sub].customer, pe.feature, ent);
    DatedOffIsBase(db, sub, ent, BaseTime(db, sub, ent));
    hide Times, HasLive, WorkerShift, DatedOff, Consistent, Sells;
  }

  lemma {:induction false} AddsCycle(db: Db, mid: Db, sub: Id, k: nat, base: Time, row: GrantRow, now: Time)
    requires OnlyCycles(db, mid, now) && Emission(db, sub, k, base, now, row)
    ensures OnlyCycles(db, Commit(mid, row), now)
  {
    var after := Commit(mid, row);
    assert IsEmission(db, row, now);
    hide IsEmission, Emission, GrantClash;
    assert after.grants[..|db.grants|] == mid.grants[..|db.grants|];
    assert forall i :: 0 <= i < |mid.grants| ==> after.grants[i] == mid.grants[i];
  }

  lemma {:induction false} EmitOnly(db: Db, mid: Db, sub: Id, k: nat, d: Duration, now: Time)
    requires Consistent(db) && OnlyCycles(db, mid, now) && Recurs(db, sub) && k < |PlanOf(db, sub).entries|
    requires PlanOf(db, sub).recurrence == Some(Valid(d)) && Sells(PlanOf(db, sub).entries)
    requires forall ent :: Feeds(db, sub, ent, k, d) ==> Untouched(db.grants, mid.grants, sub, ent)
    ensures OnlyCycles(db, Emit(mid, sub, PlanOf(db, sub).entries[k], d, now), now)
  {
    var pe := PlanOf(db, sub).entries[k];
    var row := Prepare(mid, sub, pe, d, now);
    assert mid == db.(grants := mid.grants);
    hide OnlyCycles, Untouched, Sells, Consistent, Times, WorkerShifter, Emission, BaseTime, Commit;
    if row.Some? {
      var ent := row.value.entitlement;
      assert Feeds(db, sub, ent, k, d);
      DecidesCycle(db, mid, sub, ent, k, d, now);
      AddsCycle(db, mid, sub, k, BaseTime(db, sub, ent), row.value, now);
    }
  }

  lemma {:induction false} EmitAllOnly(db: Db, mid: Db, sub: Id, n: nat, d: Duration, now: Time)
    requires Consistent(db) && OnlyCycles(db, mid, now) && Recurs(db, sub) && n <= |PlanOf(db, sub).entries|
    requires PlanOf(db, sub).recurrence == Some(Valid(d)) && Sells(PlanOf(db, sub).entries)
    requires forall ent, k :: Feeds(db, sub, ent, k, d) ==> Untouched(db.grants, mid.grants, sub, ent)
    ensures OnlyCycles(db, EmitAll(mid, sub, PlanOf(db, sub).entries[..n], d, now), now)
  {
    var entries := PlanOf(db, sub).entries;
    assert mid == db.(grants := mid.grants);
    hide OnlyCycles, Untouched, Sells, Sellable, Consistent, Emit, Entitling;
    if n > 0 {
      assert entries[..n][..n - 1] == entries[..n - 1];
      EmitAllOnly(db, mid, sub, n - 1, d, now);
      var before := EmitAll(mid, sub, entries[..n - 1], d, now);
      forall ent | Feeds(db, sub, ent, n - 1, d)
        ensures Untouched(db.grants, before.grants, sub, ent)
      {
        FeedsIsServed(db, sub, ent, n - 1, d);
        assert Served(mid, sub, ent, n - 1, d);
        EmitAllNext(mid, sub, ent, n - 1, d, now, n - 1);
        UntouchedChain(db.grants, mid.grants, before.grants, sub, ent);
      }
      EmitOnly(db, before, sub, n - 1, d, now);
    }
  }

  lemma {:induction false} SameIsUntouched(grants: seq<GrantRow>, sub: Id, ent: Id)
    ensures Untouched(grants, grants, sub, ent)
  {
  }

  lemma {:induction false} ServeElsewhere(db: Db, subs: seq<Id>, sub: Id, ent: Id, now: Time)
    requires sub !in subs && ent < |db.ents| && forall s: Id :: s in subs ==> Recurring(db, s)
    ensures Untouched(db.grants, ServeAll(db, subs, now).grants, sub, ent)
  {
    hide Untouched, EmitAll;
    if subs == [] {
      assert Untouched(db.grants, db.grants, sub, ent) by { SameIsUntouched(db.grants, sub, ent); }
    } else {
      var front, last := subs[..|subs| - 1], subs[|subs| - 1];
      assert last in subs && forall s: Id :: s in front ==> s in subs;
      ServeElsewhere(db, front, sub, ent, now);
      var mid := ServeAll(db, front, now);
      var plan := mid.plans[mid.subs[last].plan];
      if plan.recurrence.value.Valid? {
        EmitAllElsewhere(mid, last, plan.entries, plan.recurrence.value.duration, now, sub, ent);
        UntouchedChain(db.grants, mid.grants, Serve(mid, last, now).grants, sub, ent);
      }
    }
  }

  lemma {:induction false} NothingAdded(db: Db, now: Time)
    ensures OnlyCycles(db, db, now)
  {
  }

  lemma {:induction false} ServeAllOnly(db: Db, subs: seq<Id>, now: Time)
    requires Consistent(db) && RecurringSell(db)
    requires Increasing(subs) && forall s: Id :: s in subs ==> Recurring(db, s)
    ensures OnlyCycles(db, ServeAll(db, subs, now), now)
  {
    hide Consistent, Untouched, EmitAll, Sells, Entitling;
    if subs == [] {
      NothingAdded(db, now);
    } else {
      var front, last := subs[..|subs| - 1], subs[|subs| - 1];
      assert last in subs && last !in front && forall s: Id :: s in front ==> s in subs;
      ServeAllOnly(db, front, now);
      var mid := ServeAll(db, front, now);
      assert Recurs(db, last);
      var plan := db.plans[db.subs[last].plan];
      if plan.recurrence.value.Valid? {
        var d := plan.recurrence.value.duration;
        forall ent, k | Feeds(db, last, ent, k, d)
          ensures Untouched(db.grants, mid.grants, last, ent)
        {
          ServeElsewhere(db, front, last, ent, now);
        }
        hide OnlyCycles;
        EmitAllOnly(db, mid, last, |plan.entries|, d, now);
        assert plan.entries[..|plan.entries|] == plan.entries;
      }
    }
  }

  /** A pass keeps every row there is, and each grant it adds is the next cycle's of an entry it
      serves, dated off the grants there were before the pass. */
  lemma {:induction false} PassAddsCycles(db: Db, now: Time)
    requires Consistent(db) && RecurringSell(db)
    ensures OnlyCycles(db, Pass(db, now), now)
  {
    ListedIsRecurring(db, |db.subs|);
    hide Consistent, RecurringSell, OnlyCycles;
    ServeAllOnly(db, Listed(db, |db.subs|), now);
  }

  // ---- Every cycle that is due ----

  lemma {:induction false} TimesJoin(a: seq<GrantRow>, b: seq<GrantRow>, sub: Id, ent: Id)
    ensures Times(a + b, sub, ent) == Times(a, sub, ent) + Times(b, sub, ent)
  {
    if b == [] {
      assert a + b == a;
    } else {
      TimesJoin(a, b[..|b| - 1], sub, ent);
      assert (a + b)[..|a + b| - 1] == a + b[..|b| - 1];
    }
  }

  /** From row `n` on, row `i` is the only one of the subscription on the entitlement. */
  predicate Sole(grants: seq<GrantRow>, n: nat, i: int, sub: Id, ent: Id) {
    n <= i < |grants| && IsOf(grants[i], sub, ent)
    && forall j :: n <= j < |grants| && j != i ==> !IsOf(grants[j], sub, ent)
  }

  predicate NoneOf(grants: seq<GrantRow>, n: nat, sub: Id, ent: Id) {
    forall i :: n <= i < |grants| ==> !IsOf(grants[i], sub, ent)
  }

  lemma {:induction false} SoleIsOf(grants: seq<GrantRow>, n: nat, i: int, sub: Id, ent: Id)
    requires Sole(grants, n, i, sub, ent)
    ensures n <= i < |grants| && IsOf(grants[i], sub, ent)
  {
  }

  lemma {:induction false} SoleLast(grants: seq<GrantRow>, last: GrantRow, n: nat, sub: Id, ent: Id)
    requires n <= |grants|
    ensures !IsOf(last, sub, ent) ==>
              forall i :: Sole(grants, n, i, sub, ent) ==> Sole(grants + [last], n, i, sub, ent)
    ensures NoneOf(grants, n, sub, ent) ==>
              if IsOf(last, sub, ent) then Sole(grants + [last], n, |grants|, sub, ent)
              else NoneOf(grants + [last], n, sub, ent)
  {
    hide IsOf;
  }

  /** One time more, one row more; no time, no row. */
  lemma {:induction false} SoleAdded(grants: seq<GrantRow>, added: seq<GrantRow>, sub: Id, ent: Id)
    ensures Times(added, sub, ent) == [] ==> NoneOf(grants + added, |grants|, sub, ent)
    ensures |Times(added, sub, ent)| == 1 ==> exists i :: Sole(grants + added, |grants|, i, sub, ent)
  {
    if added != [] {
      var front, last := added[..|added| - 1], added[|added| - 1];
      SoleAdded(grants, front, sub, ent);
      TimesAppend(front, last, sub, ent);
      assert front + [last] == added;
      hide Times;
      assert IsOf(last, sub, ent) <==> EmittedFor(last, sub, ent);
      SoleLast(grants + front, last, |grants|, sub, ent);
      assert grants + front + [last] == grants + added;
      hide Sole, NoneOf, IsOf, EmittedFor;
      if |Times(added, sub, ent)| == 1 && !IsOf(last, sub, ent) {
        var i :| Sole(grants + front, |grants|, i, sub, ent);
        assert Sole(grants + added, |grants|, i, sub, ent);
      }
    }
  }

  lemma {:induction false} EmissionIs(db: Db, sub: Id, ent: Id, k: nat, d: Duration, base: Time, now: Time, g: GrantRow)
    requires Feeds(db, sub, ent, k, d) && DatedOff(db, sub, ent, base) && IsEmission(db, g, now) && IsOf(g, sub, ent)
    ensures g == CycleGrant(PlanOf(db, sub).entries[k].grant.value, sub, ent, WorkerShift(base, d), now)
  {
    var s: Id, j: nat, b: Time :| Emission(db, s, j, b, now, g);
    DatedOffIsBase(db, sub, ent, base);
    DatedOffIsBase(db, sub, ent, b);
    hide DatedOff, BaseTime, WorkerShift, Expiring;
    assert s == sub && b == base && j == k;
  }

  lemma {:induction false} NextDueIs(db: Db, sub: Id, ent: Id, d: Duration, base: Time, now: Time)
    requires sub < |db.subs| && DatedOff(db, sub, ent, base)
    ensures var next := WorkerShift(base, d);
            NextDue(db, sub, ent, d, now) == if next <= now && !Standing(db.grants, sub, ent, next) then [next] else []
  {
    DatedOffIsBase(db, sub, ent, base);
    StandingIsLive(db.grants, sub, ent, WorkerShift(base, d));
    hide BaseTime, DatedOff, HasLive, Standing, WorkerShift;
  }

  lemma {:induction false} OnlyCyclesAre(db: Db, after: Db, now: Time)
    requires OnlyCycles(db, after, now)
    ensures var n := |db.grants|;
            && n <= |after.grants| && after.grants[..n] == db.grants && after.grants == db.grants + after.grants[n..]
            && forall i :: n <= i < |after.grants| ==> IsEmission(db, after.grants[i], now)
  {
    hide IsEmission;
  }

  lemma {:induction false} PassAddsTimes(db: Db, sub: Id, ent: Id, k: nat, d: Duration, base: Time, now: Time)
    requires Consistent(db) && RecurringSell(db) && Feeds(db, sub, ent, k, d) && DatedOff(db, sub, ent, base)
    ensures var after, n := Pass(db, now).grants, |db.grants|;
            var next := WorkerShift(base, d);
            && n <= |after| && after == db.grants + after[n..]
            && (forall i :: n <= i < |after| ==> IsEmission(db, after[i], now))
            && Times(after[n..], sub, ent) == if next <= now && !Standing(db.grants, sub, ent, next) then [next] else []
  {
    var after, n := Pass(db, now).grants, |db.grants|;
    assert sub < |db.subs|;
    hide *;
    FeedsIsServed(db, sub, ent, k, d);
    PassEmitsNext(db, sub, ent, k, d, now);
    PassAddsCycles(db, now);
    OnlyCyclesAre(db, Pass(db, now), now);
    NextDueIs(db, sub, ent, d, base, now);
    TimesJoin(db.grants, after[n..], sub, ent);
    var before := Times(db.grants, sub, ent);
    assert (before + Times(after[n..], sub, ent))[|before|..] == (before + NextDue(db, sub, ent, d, now))[|before|..];
  }

  /** One pass adds exactly one grant for an entry it serves when the next cycle is due and no live
      grant stands there, and none otherwise. */
  lemma {:induction false} PassServesEntry(db: Db, sub: Id, ent: Id, k: nat, d: Duration, base: Time, now: Time)
    requires Consistent(db) && RecurringSell(db) && Feeds(db, sub, ent, k, d) && DatedOff(db, sub, ent, base)
    ensures var after, n := Pass(db, now).grants, |db.grants|;
            var next := WorkerShift(base, d);
            && n <= |after| && after[..n] == db.grants
            && if next <= now && !Standing(db.grants, sub, ent, next)
               then exists i :: Sole(after, n, i, sub, ent)
                      && after[i] == CycleGrant(PlanOf(db, sub).entries[k].grant.value, sub, ent, next, now)
               else NoneOf(after, n, sub, ent)
  {
    var after, n := Pass(db, now).grants, |db.grants|;
    var next := WorkerShift(base, d);
    PassAddsTimes(db, sub, ent, k, d, base, now);
    assert Recurring(db, sub);
    hide *;
    SoleAdded(db.grants, after[n..], sub, ent);
    if next <= now && !Standing(db.grants, sub, ent, next) {
      var i :| Sole(after, n, i, sub, ent);
      SoleIsOf(after, n, i, sub, ent);
      EmissionIs(db, sub, ent, k, d, base, now, after[i]);
    }
  }

  /** Catch-up: after `n` passes at `now`, an entry has been given the first cycles that are due, in
      order, as many as there were passes, up to all of them; a cycle is counted exactly if it is
      due. */
  lemma {:induction false} PassesEmitDueCycles(db: Db, sub: Id, ent: Id, k: nat, d: Duration, base: Time, now: Time,
                                               n: nat)
    requires Consistent(db) && Feeds(db, sub, ent, k, d) && DatedOff(db, sub, ent, base)
    requires d.years > 0 || d.months > 0 || d.weeks > 0 || d.days > 0 || d.hours > 0 || d.minutes > 0 || d.seconds > 0
    ensures Advances(WorkerShifter(d))
    ensures var step := WorkerShifter(d);
            var due := DueCycles(step, base, now);
            && (forall m: nat :: m > 0 ==> (Iterate(step, base, m) <= now <==> m <= due))
            && Times(Passes(db, now, n).grants, sub, ent)
               == Times(db.grants, sub, ent) + Cycles(step, base, if n < due then n else due)
  {
    var step := WorkerShifter(d);
    FeedsIsServed(db, sub, ent, k, d);
    DatedOffIsBase(db, sub, ent, base);
    WorkerSteps(d);
    forall m: nat | m > 0
      ensures Iterate(step, base, m) <= now <==> m <= DueCycles(step, base, now)
    {
      DueCyclesCount(step, base, now, m);
    }
    PassesCatchUp(db, sub, ent, k, d, now, n);
    hide Times, Passes, Served, Feeds, DatedOff, BaseTime, WorkerShifter, Cycles, DueCycles, Advances;
  }
}
