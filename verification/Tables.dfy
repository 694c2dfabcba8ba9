/** The subscription, entitlement and grant tables (internal/store/store.go) and the
    operations of internal/service/subscription.go on them, as functions on values.
    Rows are never deleted, so a row's number is its id; customers and features are fixed. */
module Tables {
  import opened Options
  import opened Calendar

  type Id = nat

  /** A duration string as `duration.Parse` sees it. */
  datatype ParsedDuration = Valid(duration: Duration) | Invalid

  // ---- Plans ----

  datatype GrantTemplate = GrantTemplate(amount: int, priority: Option<int>, expiration: Option<ParsedDuration>)

  datatype UsageTerms = UsageTerms(duration: ParsedDuration, anchor: Option<Time>)

  datatype PlanEntry = PlanEntry(feature: Id, usage: Option<UsageTerms>, rollover: Option<int>,
          grant: Option<GrantTemplate>)

  datatype Plan = Plan(entries: seq<PlanEntry>, recurrence: Option<ParsedDuration>, archived: bool)

  // ---- Rows ----

  datatype SubRow = SubRow(
    customer: Id, plan: Id, startsAt: Time, endsAt: Option<Time>, canceledAt: Option<Time>, createdAt: Time)

  datatype EntRow = EntRow(
    customer: Id, feature: Id, usage: Option<UsageTerms>, rolloverMax: Option<int>,
    createdAt: Time, deletedAt: Option<Time>, subscription: Option<Id>)

  datatype GrantRow = GrantRow(
    entitlement: Id, amount: int, priority: int, effectiveAt: Time, expiresAt: Option<Time>,
    createdAt: Time, voidedAt: Option<Time>, subscription: Option<Id>)

  /** `features[f]` tells whether feature `f` is metered. */
  datatype Db = Db(customers: nat, features: seq<bool>, plans: seq<Plan>,
                   subs: seq<SubRow>, ents: seq<EntRow>, grants: seq<GrantRow>)

  datatype Error = NotFound | FailedPrecondition | AlreadyExists | InvalidArgument | Internal

  // ---- Constraints the database enforces ----

  predicate LiveEnt(e: EntRow) { e.deletedAt.None? }

  predicate ActiveSub(s: SubRow) { s.canceledAt.None? }

  predicate LiveGrant(g: GrantRow) { g.voidedAt.None? }

  /** entitlements_active_uniq, as the check on a new row. */
  predicate EntClash(ents: seq<EntRow>, e: EntRow) {
    exists i :: 0 <= i < |ents| && LiveEnt(ents[i]) && ents[i].customer == e.customer && ents[i].feature == e.feature
  }

  /** subscriptions_active_plan_uniq, for the row numbered `self`. */
  predicate SubClash(subs: seq<SubRow>, customer: Id, plan: Id, self: nat) {
    exists i :: 0 <= i < |subs| && i != self && ActiveSub(subs[i]) && subs[i].customer == customer
            && subs[i].plan == plan
  }

  predicate SameEmission(x: GrantRow, y: GrantRow) {
    LiveGrant(x) && LiveGrant(y) && x.subscription.Some? && x.subscription == y.subscription
    && x.entitlement == y.entitlement && x.effectiveAt == y.effectiveAt
  }

  /** grants_subscription_emission_uniq. */
  predicate GrantClash(grants: seq<GrantRow>, g: GrantRow) {
    g.subscription.Some?
    && exists i :: 0 <= i < |grants| && SameEmission(grants[i], g)
  }

  /** Inserting a grant: CHECK (amount > 0) and the emission index. */
  function InsertGrant(db: Db, g: GrantRow): Result<Db, Error> {
    if g.amount <= 0 || GrantClash(db.grants, g) then Err(Internal)
    else Ok(db.(grants := db.grants + [g]))
  }

  function InsertEnt(db: Db, e: EntRow): Result<Db, Error> {
    if EntClash(db.ents, e) then Err(Internal) else Ok(db.(ents := db.ents + [e]))
  }

  function InsertSub(db: Db, s: SubRow): Result<Db, Error> {
    if SubClash(db.subs, s.customer, s.plan, |db.subs|) then Err(Internal)
    else Ok(db.(subs := db.subs + [s]))
  }

  // ---- Lookups and updates ----

  /** The live entitlement of a customer for a feature. */
  function FindEnt(ents: seq<EntRow>, customer: Id, feature: Id): (found: Option<Id>)
    ensures found.Some? ==> found.value < |ents| && LiveEnt(ents[found.value])
                            && ents[found.value].customer == customer && ents[found.value].feature == feature
    ensures found.None? ==> forall i :: 0 <= i < |ents| ==>
              !(LiveEnt(ents[i]) && ents[i].customer == customer && ents[i].feature == feature)
  {
    if ents == [] then None
    else
      var e := ents[|ents| - 1];
      if LiveEnt(e) && e.customer == customer && e.feature == feature then Some(|ents| - 1)
      else FindEnt(ents[..|ents| - 1], customer, feature)
  }

  function VoidRow(g: GrantRow, at: Time): GrantRow {
    if LiveGrant(g) then g.(voidedAt := Some(at)) else g
  }

  /** Void every grant of the subscription that is not void yet; leave all others. */
  function VoidOwned(grants: seq<GrantRow>, sub: Id, at: Time): (voided: seq<GrantRow>)
    ensures |voided| == |grants|
    ensures forall i :: 0 <= i < |grants| ==>
              voided[i] == if grants[i].subscription == Some(sub) then VoidRow(grants[i], at) else grants[i]
  {
    seq(|grants|, i requires 0 <= i < |grants| =>
      if grants[i].subscription == Some(sub) then VoidRow(grants[i], at) else grants[i])
  }

  // ---- Materialising entries ----

  datatype MaterializeGrant = MaterializeGrant(amount: int, priority: int, expiresAt: Option<Time>)

  datatype SubscriptionEntry = SubscriptionEntry(
    feature: Id, usage: Option<UsageTerms>, rolloverMax: Option<int>, grant: Option<MaterializeGrant>)

  const DEFAULT_PRIORITY := 100

  function PriorityOf(g: GrantTemplate): int {
    g.priority.GetOr(DEFAULT_PRIORITY)
  }

  /** The instant a grant effective at `effectiveAt` expires; an unparsable expiration is none. */
  function ExpiryOf(g: GrantTemplate, effectiveAt: Time): Option<Time> {
    match g.expiration
    case Some(Valid(d)) => Some(WorkerShift(effectiveAt, d))
    case _ => None
  }

  /** One plan entry, resolved: unknown features, grants on boolean features and unparsable
      expirations are refused. */
  function BuildEntry(db: Db, pe: PlanEntry, startsAt: Time): Result<SubscriptionEntry, Error> {
    if pe.feature >= |db.features| then Err(FailedPrecondition)
    else if pe.grant.None? then Ok(SubscriptionEntry(pe.feature, pe.usage, pe.rollover, None))
    else if !db.features[pe.feature] then Err(FailedPrecondition)
    else
      var g := pe.grant.value;
      if g.expiration == Some(Invalid) then Err(InvalidArgument)
      else
        Ok(SubscriptionEntry(pe.feature, pe.usage, pe.rollover,
             Some(MaterializeGrant(g.amount, PriorityOf(g), ExpiryOf(g, startsAt)))))
  }

  /** `buildSubscriptionEntries`. */
  function BuildEntries(db: Db, entries: seq<PlanEntry>, startsAt: Time): Result<seq<SubscriptionEntry>, Error> {
    if entries == [] then Ok([])
    else
      var front := BuildEntries(db, entries[..|entries| - 1], startsAt);
      if front.Err? then front
      else
        var last := BuildEntry(db, entries[|entries| - 1], startsAt);
        if last.Err? then Err(last.error) else Ok(front.value + [last.value])
  }

  /** On whose behalf entries are materialised. */
  datatype Owner = Owner(sub: Id, customer: Id, startsAt: Time, createdAt: Time)

  function NewEnt(o: Owner, e: SubscriptionEntry): EntRow {
    EntRow(o.customer, e.feature, e.usage, e.rolloverMax, o.createdAt, None, Some(o.sub))
  }

  function NewGrant(o: Owner, g: MaterializeGrant, ent: Id): GrantRow {
    GrantRow(ent, g.amount, g.priority, o.startsAt, g.expiresAt, o.createdAt, None, Some(o.sub))
  }

  /** Reuse the customer's live entitlement for the feature or create one, then insert the grant. */
  function MaterializeOne(db: Db, o: Owner, e: SubscriptionEntry): Result<Db, Error> {
    var found := FindEnt(db.ents, o.customer, e.feature);
    var (db1, ent) := if found.Some? then (db, found.value) else (db.(ents := db.ents + [NewEnt(o, e)]), |db.ents|);
    if e.grant.None? then Ok(db1) else InsertGrant(db1, NewGrant(o, e.grant.value, ent))
  }

  /** `materializeEntries`, inside a transaction. */
  function Materialize(db: Db, o: Owner, entries: seq<SubscriptionEntry>): Result<Db, Error> {
    if entries == [] then Ok(db)
    else
      var front := Materialize(db, o, entries[..|entries| - 1]);
      if front.Err? then front else MaterializeOne(front.value, o, entries[|entries| - 1])
  }

  // ---- Operations ----

  /** CreateSubscription: the guards of the service, then one transaction. */
  function Subscribe(db: Db, customer: Id, plan: Id, startsAt: Time, endsAt: Option<Time>, now: Time)
    : Result<Db, Error>
  {
    if customer >= db.customers || plan >= |db.plans| then Err(NotFound)
    else if db.plans[plan].archived then Err(FailedPrecondition)
    else if SubClash(db.subs, customer, plan, |db.subs|) then Err(AlreadyExists)
    else
      var entries := BuildEntries(db, db.plans[plan].entries, startsAt);
      if entries.Err? then Err(entries.error)
      else
        var inserted := InsertSub(db, SubRow(customer, plan, startsAt, endsAt, None, now));
        if inserted.Err? then Err(inserted.error)
        else
          var done := Materialize(inserted.value, Owner(|db.subs|, customer, startsAt, now), entries.value);
          if done.Err? then Err(Internal) else done
  }

  function CanceledRow(s: SubRow, at: Time): SubRow {
    s.(canceledAt := Some(at), endsAt := if s.endsAt.Some? then s.endsAt else Some(at))
  }

  /** CancelSubscription: mark the row once, void what it owns. */
  function Cancel(db: Db, sub: Id, at: Time): Db {
    db.(subs := if sub < |db.subs| && ActiveSub(db.subs[sub])
                then db.subs[sub := CanceledRow(db.subs[sub], at)] else db.subs,
        grants := VoidOwned(db.grants, sub, at))
  }

  /** The tables after voiding a subscription's grants and switching its plan. */
  function Switched(db: Db, sub: Id, plan: Id, at: Time): Db
    requires sub < |db.subs|
  {
    db.(subs := db.subs[sub := db.subs[sub].(plan := plan)], grants := VoidOwned(db.grants, sub, at))
  }

  /** What the handler of a change goes by once its guards have passed: the subscription row as
      it was read, and the plan's entries resolved. */
  datatype PlannedChange = PlannedChange(sub: Id, row: SubRow, plan: Id, at: Time, entries: seq<SubscriptionEntry>)

  /** The plan of a change, for a subscription whose row has been read: its guards, and its entries
      resolved. */
  function PlanChange(db: Db, sub: Id, row: SubRow, plan: Id, at: Time): Result<PlannedChange, Error> {
    if plan >= |db.plans| then Err(NotFound)
    else if db.plans[plan].archived then Err(FailedPrecondition)
    else
      var entries := BuildEntries(db, db.plans[plan].entries, at);
      if entries.Err? then Err(entries.error) else Ok(PlannedChange(sub, row, plan, at, entries.value))
  }

  /** ChangeSubscription up to its transaction: read the row, test that it is active, resolve the
      plan. */
  function CheckChange(db: Db, sub: Id, plan: Id, at: Time): Result<PlannedChange, Error> {
    if sub >= |db.subs| then Err(NotFound)
    else if !ActiveSub(db.subs[sub]) then Err(FailedPrecondition)
    else PlanChange(db, sub, db.subs[sub], plan, at)
  }

  /** Its transaction: void, switch plan and materialise, whatever has become of the row since.
      The plan index looks at the row only while it is active. */
  function CommitChange(db: Db, c: PlannedChange): Result<Db, Error> {
    if c.sub >= |db.subs| then Err(Internal)
    else if ActiveSub(db.subs[c.sub]) && SubClash(db.subs, db.subs[c.sub].customer, c.plan, c.sub) then Err(Internal)
    else
      var o := Owner(c.sub, c.row.customer, c.at, c.row.createdAt);
      var done := Materialize(Switched(db, c.sub, c.plan, c.at), o, c.entries);
      if done.Err? then Err(Internal) else done
  }

  /** ChangeSubscription, with nothing between its guards and its transaction. */
  function Change(db: Db, sub: Id, plan: Id, at: Time): Result<Db, Error> {
    var c := CheckChange(db, sub, plan, at);
    if c.Err? then Err(c.error) else CommitChange(db, c.value)
  }

  function Void(db: Db, grant: Id, at: Time): Db {
    if grant < |db.grants| then db.(grants := db.grants[grant := VoidRow(db.grants[grant], at)]) else db
  }

  /** CreateGrant: a manual grant on the customer's live entitlement. */
  function TopUp(db: Db, customer: Id, feature: Id, g: MaterializeGrant, effectiveAt: Time, now: Time)
    : Result<Db, Error>
  {
    if customer >= db.customers || feature >= |db.features| then Err(NotFound)
    else
      var ent := FindEnt(db.ents, customer, feature);
      if ent.None? then Err(NotFound)
      else InsertGrant(db, GrantRow(ent.value, g.amount, g.priority, effectiveAt, g.expiresAt, now, None, None))
  }

  /** CreateEntitlement: a manual entitlement. Only the duration of a usage period is kept. */
  function Entitle(db: Db, customer: Id, feature: Id, usage: Option<ParsedDuration>, now: Time): Result<Db, Error> {
    if customer >= db.customers || feature >= |db.features| then Err(NotFound)
    else
      var terms := if usage.Some? then Some(UsageTerms(usage.value, None)) else None;
      InsertEnt(db, EntRow(customer, feature, terms, None, now, None, None))
  }

  /** DeleteEntitlement: mark the live row deleted. */
  function Unentitle(db: Db, customer: Id, feature: Id, now: Time): Db {
    var ent := FindEnt(db.ents, customer, feature);
    if ent.None? then db else db.(ents := db.ents[ent.value := db.ents[ent.value].(deletedAt := Some(now))])
  }

  function Archive(db: Db, plan: Id): Db {
    if plan < |db.plans| then db.(plans := db.plans[plan := db.plans[plan].(archived := true)]) else db
  }

  /** CreatePlan: every entry's feature must exist. */
  function AddPlan(db: Db, plan: Plan): Result<Db, Error> {
    if exists e :: e in plan.entries && e.feature >= |db.features| then Err(InvalidArgument)
    else Ok(db.(plans := db.plans + [plan.(archived := false)]))
  }
}
