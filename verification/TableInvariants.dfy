/** What every operation keeps across the tables. */
module TableInvariants {
  import opened Options
  import opened Calendar
  import opened Tables

  predicate UniqueEnts(ents: seq<EntRow>) {
    forall i, j :: 0 <= i < j < |ents| && LiveEnt(ents[i]) && LiveEnt(ents[j]) ==>
      !(ents[i].customer == ents[j].customer && ents[i].feature == ents[j].feature)
  }

  predicate UniqueSubs(subs: seq<SubRow>) {
    forall i, j :: 0 <= i < j < |subs| && ActiveSub(subs[i]) && ActiveSub(subs[j]) ==>
      !(subs[i].customer == subs[j].customer && subs[i].plan == subs[j].plan)
  }

  predicate UniqueEmissions(grants: seq<GrantRow>) {
    forall i, j :: 0 <= i < j < |grants| ==> !SameEmission(grants[i], grants[j])
  }

  /** A subscription's grants are on entitlements of its own customer, and a cancelled
      subscription owns no live one. */
  predicate OwnedWell(db: Db, g: GrantRow) {
    && g.entitlement < |db.ents|
    && g.amount > 0
    && (g.subscription.Some? ==>
          && g.subscription.value < |db.subs|
          && db.ents[g.entitlement].customer == db.subs[g.subscription.value].customer
          && (LiveGrant(g) ==> ActiveSub(db.subs[g.subscription.value])))
  }

  predicate SubsWell(db: Db) {
    forall i :: 0 <= i < |db.subs| ==> db.subs[i].plan < |db.plans| && db.subs[i].customer < db.customers
  }

  predicate GrantsWell(db: Db) {
    forall i :: 0 <= i < |db.grants| ==> OwnedWell(db, db.grants[i])
  }

  /** The cross-table invariant. */
  predicate Consistent(db: Db) {
    UniqueEnts(db.ents) && UniqueSubs(db.subs) && UniqueEmissions(db.grants) && SubsWell(db) && GrantsWell(db)
  }

  // ---- Rows only ever gain a cancellation, a deletion, a voiding ----

  predicate Marked(before: Option<Time>, after: Option<Time>) {
    before.Some? ==> after == before
  }

  predicate GrantKept(g: GrantRow, h: GrantRow) {
    h == g.(voidedAt := h.voidedAt) && Marked(g.voidedAt, h.voidedAt)
  }

  predicate SubKept(s: SubRow, r: SubRow) {
    && r == s.(plan := r.plan, canceledAt := r.canceledAt, endsAt := r.endsAt)
    && Marked(s.canceledAt, r.canceledAt) && Marked(s.endsAt, r.endsAt)
    && (s.canceledAt.Some? ==> r == s)
  }

  predicate EntKept(e: EntRow, f: EntRow) {
    f == e.(deletedAt := f.deletedAt) && Marked(e.deletedAt, f.deletedAt)
  }

  /** Nothing is removed or rewritten; marks are set once. */
  predicate Grows(before: Db, after: Db) {
    && |before.grants| <= |after.grants| && |before.subs| <= |after.subs| && |before.ents| <= |after.ents|
    && (forall i :: 0 <= i < |before.grants| ==> GrantKept(before.grants[i], after.grants[i]))
    && (forall i :: 0 <= i < |before.subs| ==> SubKept(before.subs[i], after.subs[i]))
    && (forall i :: 0 <= i < |before.ents| ==> EntKept(before.ents[i], after.ents[i]))
  }

  lemma {:induction false} GrowsTransitive(a: Db, b: Db, c: Db)
    requires Grows(a, b) && Grows(b, c)
    ensures Grows(a, c)
  {
  }

  /** An operation step that is safe in every way we track. */
  predicate SafeStep(before: Db, after: Db) {
    Consistent(after) && Grows(before, after)
  }

  // ---- Primitive steps ----

  lemma {:induction false} InsertGrantSafe(db: Db, g: GrantRow)
    requires Consistent(db) && (g.amount > 0 ==> OwnedWell(db, g))
    ensures InsertGrant(db, g).Ok? ==> SafeStep(db, InsertGrant(db, g).value)
  {
  }

  lemma {:induction false} AppendEntSafe(db: Db, e: EntRow)
    requires Consistent(db) && (LiveEnt(e) ==> !EntClash(db.ents, e))
    ensures SafeStep(db, db.(ents := db.ents + [e]))
  {
  }

  lemma {:induction false} AppendSubSafe(db: Db, s: SubRow)
    requires Consistent(db) && !SubClash(db.subs, s.customer, s.plan, |db.subs|)
    requires s.plan < |db.plans| && s.customer < db.customers
    ensures SafeStep(db, db.(subs := db.subs + [s]))
  {
  }

  lemma {:induction false} CancelSafe(db: Db, sub: Id, at: Time)
    requires Consistent(db)
    ensures SafeStep(db, Cancel(db, sub, at))
  {
  }

  lemma {:induction false} SwitchSafe(db: Db, sub: Id, plan: Id, at: Time)
    requires Consistent(db) && sub < |db.subs| && ActiveSub(db.subs[sub]) && plan < |db.plans|
    requires !SubClash(db.subs, db.subs[sub].customer, plan, sub)
    ensures SafeStep(db, Switched(db, sub, plan, at))
  {
  }

  lemma {:induction false} VoidSafe(db: Db, grant: Id, at: Time)
    requires Consistent(db)
    ensures SafeStep(db, Void(db, grant, at))
  {
  }

  lemma {:induction false} UnentitleSafe(db: Db, customer: Id, feature: Id, now: Time)
    requires Consistent(db)
    ensures SafeStep(db, Unentitle(db, customer, feature, now))
  {
  }

  lemma {:induction false} ArchiveSafe(db: Db, plan: Id)
    requires Consistent(db)
    ensures SafeStep(db, Archive(db, plan))
  {
  }

  lemma {:induction false} AddPlanSafe(db: Db, plan: Plan)
    requires Consistent(db)
    ensures AddPlan(db, plan).Ok? ==> SafeStep(db, AddPlan(db, plan).value)
  {
  }

  // ---- Materialising ----

  /** The owner row is there and active. */
  predicate OwnerOf(db: Db, o: Owner) {
    o.sub < |db.subs| && ActiveSub(db.subs[o.sub]) && db.subs[o.sub].customer == o.customer
  }

  lemma {:induction false} MaterializeOneSafe(db: Db, o: Owner, e: SubscriptionEntry)
    requires Consistent(db) && OwnerOf(db, o)
    ensures MaterializeOne(db, o, e).Ok? ==>
              SafeStep(db, MaterializeOne(db, o, e).value) && MaterializeOne(db, o, e).value.subs == db.subs
  {
    var found := FindEnt(db.ents, o.customer, e.feature);
    var db1 := if found.Some? then db else db.(ents := db.ents + [NewEnt(o, e)]);
    var ent := if found.Some? then found.value else |db.ents|;
    if found.None? {
      AppendEntSafe(db, NewEnt(o, e));
    }
    if e.grant.Some? {
      InsertGrantSafe(db1, NewGrant(o, e.grant.value, ent));
    }
  }

  lemma {:induction false} GrowsItself(db: Db)
    ensures Grows(db, db)
  {
  }

  lemma {:induction false} MaterializeSafe(db: Db, o: Owner, entries: seq<SubscriptionEntry>)
    requires Consistent(db) && OwnerOf(db, o)
    ensures Materialize(db, o, entries).Ok? ==>
              SafeStep(db, Materialize(db, o, entries).value) && Materialize(db, o, entries).value.subs == db.subs
  {
    hide Consistent, Grows;
    if entries == [] {
      GrowsItself(db);
    } else {
      var front := Materialize(db, o, entries[..|entries| - 1]);
      MaterializeSafe(db, o, entries[..|entries| - 1]);
      if front.Ok? {
        MaterializeOneSafe(front.value, o, entries[|entries| - 1]);
        if Materialize(db, o, entries).Ok? {
          GrowsTransitive(db, front.value, Materialize(db, o, entries).value);
        }
      }
    }
  }

  lemma {:induction false} SubscribeSafe(db: Db, customer: Id, plan: Id, startsAt: Time, endsAt: Option<Time>,
                                         now: Time)
    requires Consistent(db)
    ensures Subscribe(db, customer, plan, startsAt, endsAt, now).Ok? ==>
              SafeStep(db, Subscribe(db, customer, plan, startsAt, endsAt, now).value)
  {
    var done := Subscribe(db, customer, plan, startsAt, endsAt, now);
    if done.Ok? {
      var row := SubRow(customer, plan, startsAt, endsAt, None, now);
      var inserted := db.(subs := db.subs + [row]);
      AppendSubSafe(db, row);
      MaterializeSafe(inserted, Owner(|db.subs|, customer, startsAt, now),
                      BuildEntries(db, db.plans[plan].entries, startsAt).value);
      GrowsTransitive(db, inserted, done.value);
    }
  }

  lemma {:induction false} ChangeSafe(db: Db, sub: Id, plan: Id, at: Time)
    requires Consistent(db)
    ensures Change(db, sub, plan, at).Ok? ==> SafeStep(db, Change(db, sub, plan, at).value)
  {
    var done := Change(db, sub, plan, at);
    if done.Ok? {
      var s := db.subs[sub];
      SwitchSafe(db, sub, plan, at);
      MaterializeSafe(Switched(db, sub, plan, at), Owner(sub, s.customer, at, s.createdAt),
                      BuildEntries(db, db.plans[plan].entries, at).value);
      GrowsTransitive(db, Switched(db, sub, plan, at), done.value);
    }
  }

  lemma {:induction false} TopUpSafe(db: Db, customer: Id, feature: Id, g: MaterializeGrant, effectiveAt: Time,
                                     now: Time)
    requires Consistent(db)
    ensures TopUp(db, customer, feature, g, effectiveAt, now).Ok? ==>
            SafeStep(db, TopUp(db, customer, feature, g, effectiveAt, now).value)
  {
  }

  lemma {:induction false} EntitleSafe(db: Db, customer: Id, feature: Id, usage: Option<ParsedDuration>, now: Time)
    requires Consistent(db)
    ensures Entitle(db, customer, feature, usage, now).Ok? ==>
            SafeStep(db, Entitle(db, customer, feature, usage, now).value)
  {
  }
}
