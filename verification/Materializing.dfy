/** What a successful subscribe or change leaves behind, row by row. */
module Materializing {
  import opened Options
  import opened Calendar
  import opened Tables
  import opened TableInvariants

  /** The grants for the grant-bearing entries, in order, each on the live entitlement of the
      customer for the entry's feature. */
  function NewGrants(ents: seq<EntRow>, o: Owner, entries: seq<SubscriptionEntry>): seq<GrantRow> {
    if entries == [] then []
    else
      var front, e := NewGrants(ents, o, entries[..|entries| - 1]), entries[|entries| - 1];
      var ent := FindEnt(ents, o.customer, e.feature);
      if e.grant.Some? && ent.Some? then front + [NewGrant(o, e.grant.value, ent.value)] else front
  }

  /** Old entitlements untouched; every new one belongs to the owner. */
  predicate EntsExtend(before: seq<EntRow>, after: seq<EntRow>, o: Owner) {
    && |before| <= |after| && after[..|before|] == before
    && forall i :: |before| <= i < |after| ==> after[i].customer == o.customer && after[i].subscription == Some(o.sub)
  }

  predicate AllEntitled(ents: seq<EntRow>, o: Owner, entries: seq<SubscriptionEntry>) {
    forall k :: 0 <= k < |entries| ==> FindEnt(ents, o.customer, entries[k].feature).Some?
  }

  lemma {:induction false} FindEntKeeps(ents: seq<EntRow>, e: EntRow, customer: Id, feature: Id)
    requires e.customer == customer ==> e.feature != feature
    ensures FindEnt(ents + [e], customer, feature) == FindEnt(ents, customer, feature)
  {
  }

  lemma {:induction false} NewGrantsKeep(ents: seq<EntRow>, e: EntRow, o: Owner, entries: seq<SubscriptionEntry>)
    requires AllEntitled(ents, o, entries)
    requires FindEnt(ents, o.customer, e.feature).None? && e.customer == o.customer
    ensures NewGrants(ents + [e], o, entries) == NewGrants(ents, o, entries)
    ensures AllEntitled(ents + [e], o, entries)
  {
    if entries != [] {
      var front, last := entries[..|entries| - 1], entries[|entries| - 1];
      assert forall k :: 0 <= k < |front| ==> front[k] == entries[k];
      NewGrantsKeep(ents, e, o, front);
      assert FindEnt(ents, o.customer, last.feature).Some?;
      FindEntKeeps(ents, e, o.customer, last.feature);
      forall k | 0 <= k < |entries|
        ensures FindEnt(ents + [e], o.customer, entries[k].feature).Some?
      {
        assert k < |front| ==> entries[k] == front[k];
      }
    }
  }

  /** The entitlements one entry leaves. */
  lemma {:induction false} EntitledAfter(db: Db, o: Owner, done: seq<SubscriptionEntry>, e: SubscriptionEntry)
    requires MaterializeOne(db, o, e).Ok? && AllEntitled(db.ents, o, done)
    ensures var ents := MaterializeOne(db, o, e).value.ents;
            && EntsExtend(db.ents, ents, o) && AllEntitled(ents, o, done + [e])
            && NewGrants(ents, o, done) == NewGrants(db.ents, o, done)
  {
    if FindEnt(db.ents, o.customer, e.feature).None? {
      NewGrantsKeep(db.ents, NewEnt(o, e), o, done);
      assert MaterializeOne(db, o, e).value.ents[..|db.ents|] == db.ents;
    }
  }

  lemma {:induction false} NewGrantsPush(ents: seq<EntRow>, o: Owner, done: seq<SubscriptionEntry>,
                                         e: SubscriptionEntry)
    requires FindEnt(ents, o.customer, e.feature).Some?
    ensures var ent := FindEnt(ents, o.customer, e.feature).value;
            NewGrants(ents, o, done + [e])
            == NewGrants(ents, o, done) + if e.grant.Some? then [NewGrant(o, e.grant.value, ent)] else []
  {
  }

  lemma {:induction false} GrantsAfter(db: Db, o: Owner, e: SubscriptionEntry)
    requires MaterializeOne(db, o, e).Ok?
    ensures var r := MaterializeOne(db, o, e).value;
            && r == db.(ents := r.ents, grants := r.grants)
            && FindEnt(r.ents, o.customer, e.feature).Some?
            && r.grants == db.grants + if e.grant.Some?
                                       then [NewGrant(o, e.grant.value, FindEnt(r.ents, o.customer, e.feature).value)]
                                       else []
  {
  }

  /** One entry: at most one new entitlement, exactly one grant if it bears one. */
  lemma {:induction false} MaterializeOneLeaves(db: Db, o: Owner, done: seq<SubscriptionEntry>, e: SubscriptionEntry)
    requires MaterializeOne(db, o, e).Ok? && AllEntitled(db.ents, o, done)
    ensures var r := MaterializeOne(db, o, e).value;
            && r == db.(ents := r.ents, grants := r.grants)
            && EntsExtend(db.ents, r.ents, o)
            && AllEntitled(r.ents, o, done + [e])
            && NewGrants(r.ents, o, done) == NewGrants(db.ents, o, done)
            && r.grants == db.grants + NewGrants(r.ents, o, done + [e])[|NewGrants(r.ents, o, done)|..]
            && NewGrants(r.ents, o, done) <= NewGrants(r.ents, o, done + [e])
  {
    hide MaterializeOne, FindEnt, NewGrants, AllEntitled, EntsExtend;
    EntitledAfter(db, o, done, e);
    GrantsAfter(db, o, e);
    NewGrantsPush(MaterializeOne(db, o, e).value.ents, o, done, e);
  }

  lemma {:induction false} NothingLeft(db: Db, o: Owner)
    ensures EntsExtend(db.ents, db.ents, o) && AllEntitled(db.ents, o, []) && NewGrants(db.ents, o, []) == []
  {
  }

  lemma {:induction false} EntsExtendChain(a: seq<EntRow>, b: seq<EntRow>, c: seq<EntRow>, o: Owner)
    requires EntsExtend(a, b, o) && EntsExtend(b, c, o)
    ensures EntsExtend(a, c, o)
  {
  }

  lemma {:induction false} Join(base: seq<GrantRow>, fewer: seq<GrantRow>, more: seq<GrantRow>)
    requires fewer <= more
    ensures (base + fewer) + more[|fewer|..] == base + more
  {
  }

  lemma {:induction false} MaterializeLeaves(db: Db, o: Owner, entries: seq<SubscriptionEntry>)
    requires Materialize(db, o, entries).Ok?
    ensures var r := Materialize(db, o, entries).value;
            && r == db.(ents := r.ents, grants := r.grants)
            && EntsExtend(db.ents, r.ents, o)
            && AllEntitled(r.ents, o, entries)
            && r.grants == db.grants + NewGrants(r.ents, o, entries)
  {
    hide FindEnt, MaterializeOne, NewGrants, AllEntitled, EntsExtend;
    if entries == [] {
      NothingLeft(db, o);
    } else {
      var front, last := entries[..|entries| - 1], entries[|entries| - 1];
      MaterializeLeaves(db, o, front);
      var mid := Materialize(db, o, front).value;
      MaterializeOneLeaves(mid, o, front, last);
      assert front + [last] == entries;
      var r := Materialize(db, o, entries).value;
      EntsExtendChain(db.ents, mid.ents, r.ents, o);
      Join(db.grants, NewGrants(r.ents, o, front), NewGrants(r.ents, o, entries));
    }
  }

  // ---- Exactly which entries can be materialised ----

  /** Every grant is positive and no feature is granted twice. */
  predicate Deliverable(entries: seq<SubscriptionEntry>) {
    && (forall i :: 0 <= i < |entries| && entries[i].grant.Some? ==> entries[i].grant.value.amount > 0)
    && (forall i, j :: 0 <= i < j < |entries| && entries[i].grant.Some? && entries[j].grant.Some? ==>
          entries[i].feature != entries[j].feature)
  }

  predicate OwnsNoLive(grants: seq<GrantRow>, sub: Id) {
    forall i :: 0 <= i < |grants| && grants[i].subscription == Some(sub) ==> !LiveGrant(grants[i])
  }

  lemma {:induction false} RowHasEntry(ents: seq<EntRow>, o: Owner, entries: seq<SubscriptionEntry>, k: nat)
    returns (i: nat)
    requires k < |NewGrants(ents, o, entries)|
    ensures var row := NewGrants(ents, o, entries)[k];
            && i < |entries| && entries[i].grant.Some?
            && FindEnt(ents, o.customer, entries[i].feature) == Some(row.entitlement)
            && row == NewGrant(o, entries[i].grant.value, row.entitlement)
  {
    var front := entries[..|entries| - 1];
    if k < |NewGrants(ents, o, front)| {
      i := RowHasEntry(ents, o, front, k);
    } else {
      i := |front|;
    }
  }

  lemma {:induction false} EntryHasRow(ents: seq<EntRow>, o: Owner, entries: seq<SubscriptionEntry>, i: nat)
    returns (k: nat)
    requires i < |entries| && entries[i].grant.Some? && FindEnt(ents, o.customer, entries[i].feature).Some?
    ensures k < |NewGrants(ents, o, entries)|
    ensures NewGrants(ents, o, entries)[k]
            == NewGrant(o, entries[i].grant.value, FindEnt(ents, o.customer, entries[i].feature).value)
  {
    var front := entries[..|entries| - 1];
    if i < |front| {
      k := EntryHasRow(ents, o, front, i);
    } else {
      k := |NewGrants(ents, o, front)|;
    }
  }

  predicate Granted(front: seq<SubscriptionEntry>, feature: Id) {
    exists i :: 0 <= i < |front| && front[i].grant.Some? && front[i].feature == feature
  }

  /** The row of one more entry clashes exactly if its feature was granted already. */
  lemma {:induction false} RowClashIff(grants: seq<GrantRow>, ents: seq<EntRow>, o: Owner,
                                       front: seq<SubscriptionEntry>, e: SubscriptionEntry, ent: Id)
    requires OwnsNoLive(grants, o.sub) && AllEntitled(ents, o, front) && e.grant.Some?
    requires match FindEnt(ents, o.customer, e.feature) { case Some(found) => ent == found case None => ent == |ents| }
    ensures GrantClash(grants + NewGrants(ents, o, front), NewGrant(o, e.grant.value, ent))
            <==> Granted(front, e.feature)
  {
    var all, row := grants + NewGrants(ents, o, front), NewGrant(o, e.grant.value, ent);
    hide NewGrants;
    if i :| 0 <= i < |front| && front[i].grant.Some? && front[i].feature == e.feature {
      var k := EntryHasRow(ents, o, front, i);
      assert SameEmission(all[|grants| + k], row);
    } else {
      forall r | 0 <= r < |all|
        ensures !SameEmission(all[r], row)
      {
        if r >= |grants| {
          var i := RowHasEntry(ents, o, front, r - |grants|);
        }
      }
    }
  }

  lemma {:induction false} LastOkIff(db: Db, o: Owner, front: seq<SubscriptionEntry>, e: SubscriptionEntry)
    requires OwnsNoLive(db.grants, o.sub) && Materialize(db, o, front).Ok?
    ensures MaterializeOne(Materialize(db, o, front).value, o, e).Ok?
            <==> (e.grant.Some? ==> e.grant.value.amount > 0 && !Granted(front, e.feature))
  {
    var mid := Materialize(db, o, front).value;
    MaterializeLeaves(db, o, front);
    hide Materialize, NewGrants, EntsExtend, AllEntitled, OwnsNoLive, GrantClash, Granted;
    if e.grant.Some? {
      var found := FindEnt(mid.ents, o.customer, e.feature);
      RowClashIff(db.grants, mid.ents, o, front, e, if found.Some? then found.value else |mid.ents|);
    }
  }

  lemma {:induction false} DeliverableLast(entries: seq<SubscriptionEntry>)
    requires entries != []
    ensures var front, e := entries[..|entries| - 1], entries[|entries| - 1];
            Deliverable(entries) <==>
              Deliverable(front) && (e.grant.Some? ==> e.grant.value.amount > 0 && !Granted(front, e.feature))
  {
    var front := entries[..|entries| - 1];
    assert forall i :: 0 <= i < |front| ==> front[i] == entries[i];
  }

  /** For an owner without live grants, materialising succeeds exactly for deliverable entries,
      whatever else the tables hold. */
  lemma {:induction false} MaterializesIffDeliverable(db: Db, o: Owner, entries: seq<SubscriptionEntry>)
    requires OwnsNoLive(db.grants, o.sub)
    ensures Materialize(db, o, entries).Ok? <==> Deliverable(entries)
  {
    if entries != [] {
      var front, last := entries[..|entries| - 1], entries[|entries| - 1];
      MaterializesIffDeliverable(db, o, front);
      DeliverableLast(entries);
      hide MaterializeOne, OwnsNoLive, Deliverable, Granted;
      if Materialize(db, o, front).Ok? {
        LastOkIff(db, o, front, last);
      }
    }
  }

  // ---- The new grants against the plan ----

  function GrantBearing(entries: seq<PlanEntry>): seq<PlanEntry> {
    if entries == [] then []
    else
      var front, pe := GrantBearing(entries[..|entries| - 1]), entries[|entries| - 1];
      if pe.grant.Some? then front + [pe] else front
  }

  lemma {:induction false} BearingHas(entries: seq<PlanEntry>, j: nat)
    requires j < |entries| && entries[j].grant.Some?
    ensures entries[j] in GrantBearing(entries)
  {
    var front := entries[..|entries| - 1];
    if j < |front| {
      assert front[j] == entries[j];
      BearingHas(front, j);
    }
  }

  /** The grant row a plan entry asks for. */
  predicate RowFor(row: GrantRow, pe: PlanEntry, ents: seq<EntRow>, o: Owner) {
    && pe.grant.Some?
    && FindEnt(ents, o.customer, pe.feature) == Some(row.entitlement)
    && row.amount == pe.grant.value.amount && row.priority == pe.grant.value.priority.GetOr(DEFAULT_PRIORITY)
    && row.effectiveAt == o.startsAt && row.subscription == Some(o.sub) && LiveGrant(row)
    && row.createdAt == o.createdAt
    && row.expiresAt == ExpiryOf(pe.grant.value, o.startsAt)
  }

  /** One live grant for each grant-bearing plan entry, in order, as its template says. */
  lemma {:induction false} RowsFollowPlan(db: Db, entries: seq<PlanEntry>, ents: seq<EntRow>, o: Owner)
    requires BuildEntries(db, entries, o.startsAt).Ok?
    requires AllEntitled(ents, o, BuildEntries(db, entries, o.startsAt).value)
    ensures var rows := NewGrants(ents, o, BuildEntries(db, entries, o.startsAt).value);
            var asked := GrantBearing(entries);
            |rows| == |asked| && forall k :: 0 <= k < |rows| ==> RowFor(rows[k], asked[k], ents, o)
  {
    if entries != [] {
      var front, pe := entries[..|entries| - 1], entries[|entries| - 1];
      var built, before := BuildEntries(db, entries, o.startsAt).value, BuildEntries(db, front, o.startsAt).value;
      assert built[..|built| - 1] == before;
      assert forall k :: 0 <= k < |before| ==> before[k] == built[k];
      RowsFollowPlan(db, front, ents, o);
      var e := built[|built| - 1];
      assert FindEnt(ents, o.customer, e.feature).Some?;
    }
  }

  predicate FeaturesApart(asked: seq<PlanEntry>) {
    forall j, k :: 0 <= j < k < |asked| ==> asked[j].feature != asked[k].feature
  }

  /** A plan that can be sold: no feature is granted twice, and every grant is positive. */
  predicate Sellable(plan: Plan) {
    var asked := GrantBearing(plan.entries);
    && FeaturesApart(asked)
    && (forall k :: 0 <= k < |asked| ==> asked[k].grant.Some? && asked[k].grant.value.amount > 0)
  }

  lemma {:induction false} RowsMakeSellable(db: Db, base: seq<GrantRow>, rows: seq<GrantRow>, plan: Plan, o: Owner)
    requires Consistent(db) && db.grants == base + rows && |rows| == |GrantBearing(plan.entries)|
    requires forall k :: 0 <= k < |rows| ==> RowFor(rows[k], GrantBearing(plan.entries)[k], db.ents, o)
    ensures Sellable(plan)
  {
    var asked := GrantBearing(plan.entries);
    forall j, k | 0 <= j < k < |asked|
      ensures asked[j].feature != asked[k].feature
    {
      assert db.grants[|base| + j] == rows[j] && db.grants[|base| + k] == rows[k];
      assert !SameEmission(db.grants[|base| + j], db.grants[|base| + k]);
      assert RowFor(rows[j], asked[j], db.ents, o) && RowFor(rows[k], asked[k], db.ents, o);
    }
    forall k | 0 <= k < |asked|
      ensures asked[k].grant.Some? && asked[k].grant.value.amount > 0
    {
      assert db.grants[|base| + k] == rows[k];
      assert OwnedWell(db, db.grants[|base| + k]);
      assert RowFor(rows[k], asked[k], db.ents, o);
    }
  }

  // ---- Subscribe and change ----

  /** The tables after a success: `base` grants as they were, then one live row for each
      grant-bearing entry of the plan; entitlements only added to; a plan that is sellable. */
  predicate Delivered(after: Db, base: seq<GrantRow>, ents: seq<EntRow>, plan: Plan, o: Owner) {
    && |after.grants| == |base| + |GrantBearing(plan.entries)|
    && after.grants[..|base|] == base
    && (forall k :: 0 <= k < |GrantBearing(plan.entries)| ==>
          RowFor(after.grants[|base| + k], GrantBearing(plan.entries)[k], after.ents, o))
    && EntsExtend(ents, after.ents, o)
    && Sellable(plan)
  }

  lemma {:induction false} DeliversPlan(checked: Db, db: Db, plan: Plan, o: Owner)
    requires Consistent(db) && OwnerOf(db, o)
    requires BuildEntries(checked, plan.entries, o.startsAt).Ok?
    requires Materialize(db, o, BuildEntries(checked, plan.entries, o.startsAt).value).Ok?
    ensures var after := Materialize(db, o, BuildEntries(checked, plan.entries, o.startsAt).value).value;
            after == db.(ents := after.ents, grants := after.grants) && Delivered(after, db.grants, db.ents, plan, o)
  {
    var entries := BuildEntries(checked, plan.entries, o.startsAt).value;
    var after := Materialize(db, o, entries).value;
    MaterializeLeaves(db, o, entries);
    MaterializeSafe(db, o, entries);
    RowsFollowPlan(checked, plan.entries, after.ents, o);
    RowsMakeSellable(after, db.grants, NewGrants(after.ents, o, entries), plan, o);
    assert after.grants[..|db.grants|] == db.grants;
  }

  /** With the subscription's old rows voided, its live rows are the delivered ones. */
  lemma {:induction false} OnlyNewRowsLive(before: seq<GrantRow>, after: Db, ents: seq<EntRow>, plan: Plan,
                                           o: Owner, at: Time)
    requires Delivered(after, VoidOwned(before, o.sub, at), ents, plan, o)
    ensures forall i :: 0 <= i < |after.grants| ==>
              (LiveGrant(after.grants[i]) && after.grants[i].subscription == Some(o.sub) <==> i >= |before|)
    ensures forall i :: 0 <= i < |before| && before[i].subscription != Some(o.sub) ==> after.grants[i] == before[i]
  {
    var base := VoidOwned(before, o.sub, at);
    hide Sellable, EntsExtend;
    forall i | 0 <= i < |after.grants|
      ensures if i < |base| then after.grants[i] == base[i]
              else LiveGrant(after.grants[i]) && after.grants[i].subscription == Some(o.sub)
    {
      if i < |base| {
        assert after.grants[..|base|][i] == base[i];
      } else {
        var k := i - |base|;
        assert RowFor(after.grants[|base| + k], GrantBearing(plan.entries)[k], after.ents, o);
      }
    }
  }

  /** A successful change leaves the subscription with exactly one live grant for each
      grant-bearing entry of the new plan, effective at `at`, and every row of anyone else's,
      as well as every existing entitlement, as it was. */
  lemma {:induction false} ChangeOutcome(db: Db, sub: Id, plan: Id, at: Time)
    requires Consistent(db) && Change(db, sub, plan, at).Ok?
    ensures var after := Change(db, sub, plan, at).value;
            var o := Owner(sub, db.subs[sub].customer, at, db.subs[sub].createdAt);
            && after == db.(subs := db.subs[sub := db.subs[sub].(plan := plan)], ents := after.ents,
                    grants := after.grants)
            && Delivered(after, VoidOwned(db.grants, sub, at), db.ents, db.plans[plan], o)
            && (forall i :: 0 <= i < |after.grants| ==>
                  (LiveGrant(after.grants[i]) && after.grants[i].subscription == Some(sub) <==> i >= |db.grants|))
            && (forall i :: 0 <= i < |db.grants| && db.grants[i].subscription != Some(sub) ==>
                    after.grants[i] == db.grants[i])
  {
    var s := db.subs[sub];
    var o := Owner(sub, s.customer, at, s.createdAt);
    var switched := Switched(db, sub, plan, at);
    SwitchSafe(db, sub, plan, at);
    DeliversPlan(db, switched, db.plans[plan], o);
    hide Delivered, Consistent, Materialize, BuildEntries;
    OnlyNewRowsLive(db.grants, Change(db, sub, plan, at).value, db.ents, db.plans[plan], o, at);
  }

  /** A successful subscribe adds one active row, one live grant for each grant-bearing entry,
      and touches nothing that was there. */
  lemma {:induction false} SubscribeOutcome(db: Db, customer: Id, plan: Id, startsAt: Time, endsAt: Option<Time>,
                                            now: Time)
    requires Consistent(db) && Subscribe(db, customer, plan, startsAt, endsAt, now).Ok?
    ensures var after := Subscribe(db, customer, plan, startsAt, endsAt, now).value;
            var o := Owner(|db.subs|, customer, startsAt, now);
            && after == db.(subs := db.subs + [SubRow(customer, plan, startsAt, endsAt, None, now)],
                            ents := after.ents, grants := after.grants)
            && Delivered(after, db.grants, db.ents, db.plans[plan], o)
  {
    var row := SubRow(customer, plan, startsAt, endsAt, None, now);
    AppendSubSafe(db, row);
    DeliversPlan(db, db.(subs := db.subs + [row]), db.plans[plan], Owner(|db.subs|, customer, startsAt, now));
  }
}
