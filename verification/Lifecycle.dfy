/** Whole runs of subscribing, cancelling, changing, voiding, granting and worker passes,
    each operation atomic: what holds in every reachable state. */
module Lifecycle {
  import opened Options
  import opened Calendar
  import opened Tables
  import opened TableInvariants
  import opened Materializing
  import opened Recurrence

  datatype Op =
    | DoSubscribe(customer: Id, plan: Id, startsAt: Time, endsAt: Option<Time>, now: Time)
    | DoCancel(sub: Id, at: Time)
    | DoChange(sub: Id, plan: Id, at: Time)
    | DoVoid(grant: Id, at: Time)
    | DoTopUp(customer: Id, feature: Id, credit: MaterializeGrant, effectiveAt: Time, now: Time)
    | DoEntitle(customer: Id, feature: Id, usage: Option<ParsedDuration>, now: Time)
    | DoUnentitle(customer: Id, feature: Id, now: Time)
    | DoAddPlan(added: Plan)
    | DoArchive(plan: Id)
    | DoPass(now: Time)

  /** A refused operation leaves every table as it was. */
  function Settle(db: Db, r: Result<Db, Error>): Db {
    if r.Ok? then r.value else db
  }

  function Step(db: Db, op: Op): Db {
    match op
    case DoSubscribe(c, p, startsAt, endsAt, now) => Settle(db, Subscribe(db, c, p, startsAt, endsAt, now))
    case DoCancel(s, at) => Cancel(db, s, at)
    case DoChange(s, p, at) => Settle(db, Change(db, s, p, at))
    case DoVoid(g, at) => Void(db, g, at)
    case DoTopUp(c, f, g, effectiveAt, now) => Settle(db, TopUp(db, c, f, g, effectiveAt, now))
    case DoEntitle(c, f, usage, now) => Settle(db, Entitle(db, c, f, usage, now))
    case DoUnentitle(c, f, now) => Unentitle(db, c, f, now)
    case DoAddPlan(p) => Settle(db, AddPlan(db, p))
    case DoArchive(p) => Archive(db, p)
    case DoPass(now) => Pass(db, now)
  }

  function RunOps(db: Db, ops: seq<Op>): Db {
    if ops == [] then db else Step(RunOps(db, ops[..|ops| - 1]), ops[|ops| - 1])
  }

  function Blank(customers: nat, features: seq<bool>): Db {
    Db(customers, features, [], [], [], [])
  }

  // ---- Worker passes are safe ----

  lemma {:induction false} EmitSafe(db: Db, sub: Id, pe: PlanEntry, d: Duration, now: Time)
    requires Consistent(db) && sub < |db.subs| && ActiveSub(db.subs[sub])
    ensures SafeStep(db, Emit(db, sub, pe, d, now))
  {
    var row := Prepare(db, sub, pe, d, now);
    GrowsItself(db);
    if row.Some? {
      InsertGrantSafe(db, row.value);
    }
  }

  lemma {:induction false} EmitAllSafe(db: Db, sub: Id, entries: seq<PlanEntry>, d: Duration, now: Time)
    requires Consistent(db) && sub < |db.subs| && ActiveSub(db.subs[sub])
    ensures SafeStep(db, EmitAll(db, sub, entries, d, now))
  {
    hide Consistent, Grows, Emit;
    GrowsItself(db);
    if entries != [] {
      var mid := EmitAll(db, sub, entries[..|entries| - 1], d, now);
      EmitAllSafe(db, sub, entries[..|entries| - 1], d, now);
      EmitSafe(mid, sub, entries[|entries| - 1], d, now);
      GrowsTransitive(db, mid, EmitAll(db, sub, entries, d, now));
    }
  }

  lemma {:induction false} ServeAllSafe(db: Db, subs: seq<Id>, now: Time)
    requires Consistent(db) && forall s: Id :: s in subs ==> Recurring(db, s)
    ensures SafeStep(db, ServeAll(db, subs, now))
  {
    hide Consistent, Grows, EmitAll;
    GrowsItself(db);
    if subs != [] {
      var front, last := subs[..|subs| - 1], subs[|subs| - 1];
      assert forall s: Id :: s in front ==> s in subs;
      assert last in subs;
      ServeAllSafe(db, front, now);
      var mid := ServeAll(db, front, now);
      assert Recurring(mid, last);
      var plan := mid.plans[mid.subs[last].plan];
      GrowsItself(mid);
      if plan.recurrence.value.Valid? {
        EmitAllSafe(mid, last, plan.entries, plan.recurrence.value.duration, now);
      }
      GrowsTransitive(db, mid, Serve(mid, last, now));
    }
  }

  lemma {:induction false} PassSafe(db: Db, now: Time)
    requires Consistent(db)
    ensures SafeStep(db, Pass(db, now))
  {
    ListedIsRecurring(db, |db.subs|);
    ServeAllSafe(db, Listed(db, |db.subs|), now);
  }

  // ---- Every operation ----

  /** Every operation keeps the cross-table invariant and only ever sets marks once. */
  lemma {:induction false} StepSafe(db: Db, op: Op)
    requires Consistent(db)
    ensures SafeStep(db, Step(db, op))
  {
    hide Consistent, Grows, Subscribe, Change, TopUp, Entitle, AddPlan, Pass, Cancel, Void, Unentitle, Archive;
    GrowsItself(db);
    match op
    case DoSubscribe(c, p, startsAt, endsAt, now) => SubscribeSafe(db, c, p, startsAt, endsAt, now);
    case DoCancel(s, at) => CancelSafe(db, s, at);
    case DoChange(s, p, at) => ChangeSafe(db, s, p, at);
    case DoVoid(g, at) => VoidSafe(db, g, at);
    case DoTopUp(c, f, g, effectiveAt, now) => TopUpSafe(db, c, f, g, effectiveAt, now);
    case DoEntitle(c, f, usage, now) => EntitleSafe(db, c, f, usage, now);
    case DoUnentitle(c, f, now) => UnentitleSafe(db, c, f, now);
    case DoAddPlan(p) => AddPlanSafe(db, p);
    case DoArchive(p) => ArchiveSafe(db, p);
    case DoPass(now) => PassSafe(db, now);
  }

  lemma {:induction false} RunSafe(db: Db, ops: seq<Op>)
    requires Consistent(db)
    ensures SafeStep(db, RunOps(db, ops))
  {
    hide Consistent, Grows, Step;
    GrowsItself(db);
    if ops != [] {
      var mid := RunOps(db, ops[..|ops| - 1]);
      RunSafe(db, ops[..|ops| - 1]);
      StepSafe(mid, ops[|ops| - 1]);
      GrowsTransitive(db, mid, RunOps(db, ops));
    }
  }

  /** From empty tables, every run keeps at most one live entitlement per customer and
      feature, at most one active subscription per customer and plan, at most one live
      emission per subscription, entitlement and time, and every subscription grant on an
      entitlement of the subscription's customer. */
  lemma {:induction false} ReachableConsistent(customers: nat, features: seq<bool>, ops: seq<Op>)
    ensures Consistent(RunOps(Blank(customers, features), ops))
  {
    RunSafe(Blank(customers, features), ops);
  }

  /** Once cancelled, a subscription stays so, with its original time, and never again owns
      a live grant, whatever happens later. */
  lemma {:induction false} CancelledForGood(db: Db, ops: seq<Op>, sub: Id)
    requires Consistent(db) && sub < |db.subs| && !ActiveSub(db.subs[sub])
    ensures var later := RunOps(db, ops);
            && sub < |later.subs| && later.subs[sub] == db.subs[sub]
            && forall i :: 0 <= i < |later.grants| && later.grants[i].subscription == Some(sub) ==>
                    !LiveGrant(later.grants[i])
  {
    RunSafe(db, ops);
    var later := RunOps(db, ops);
    assert SubKept(db.subs[sub], later.subs[sub]);
    forall i | 0 <= i < |later.grants| && later.grants[i].subscription == Some(sub)
      ensures !LiveGrant(later.grants[i])
    {
      assert OwnedWell(later, later.grants[i]);
    }
  }

  /** A grant is voided once: its void time, like everything else about it, never changes. */
  lemma {:induction false} VoidedForGood(db: Db, ops: seq<Op>, i: Id)
    requires Consistent(db) && i < |db.grants|
    ensures var later := RunOps(db, ops);
            && i < |later.grants| && later.grants[i] == db.grants[i].(voidedAt := later.grants[i].voidedAt)
            && (!LiveGrant(db.grants[i]) ==> later.grants[i] == db.grants[i])
  {
    RunSafe(db, ops);
    assert GrantKept(db.grants[i], RunOps(db, ops).grants[i]);
  }

  // ---- Active subscriptions are on plans that could be sold ----

  predicate PlansSold(db: Db) {
    forall i :: 0 <= i < |db.subs| && ActiveSub(db.subs[i]) ==>
      db.subs[i].plan < |db.plans| && Sellable(db.plans[db.subs[i].plan])
  }

  lemma {:induction false} ArchiveKeepsSellable(db: Db, plan: Id)
    ensures forall p :: 0 <= p < |db.plans| && Sellable(db.plans[p]) ==> Sellable(Archive(db, plan).plans[p])
  {
  }

  lemma {:induction false} StepKeepsSold(db: Db, op: Op)
    requires Consistent(db) && PlansSold(db)
    ensures PlansSold(Step(db, op))
  {
    hide Consistent, Sellable, Materialize, BuildEntries;
    match op
    case DoSubscribe(c, p, startsAt, endsAt, now) =>
      if Subscribe(db, c, p, startsAt, endsAt, now).Ok? {
        SubscribeOutcome(db, c, p, startsAt, endsAt, now);
      }
    case DoChange(s, p, at) =>
      if Change(db, s, p, at).Ok? {
        ChangeOutcome(db, s, p, at);
      }
    case DoArchive(p) => ArchiveKeepsSellable(db, p);
    case DoPass(now) =>
    case _ =>
  }

  lemma {:induction false} ReachableSold(customers: nat, features: seq<bool>, ops: seq<Op>)
    ensures Consistent(RunOps(Blank(customers, features), ops)) && PlansSold(RunOps(Blank(customers, features), ops))
  {
    hide Consistent, Step;
    ReachableConsistent(customers, features, ops);
    if ops != [] {
      var before := ops[..|ops| - 1];
      ReachableSold(customers, features, before);
      StepKeepsSold(RunOps(Blank(customers, features), before), ops[|ops| - 1]);
    }
  }
}
