/** What each operation does to the tables, row by row and field by field, and exactly when it
    refuses. */
module Effects {
  import opened Options
  import opened Calendar
  import opened Tables
  import opened TableInvariants
  import opened Materializing

  // ---- Cancel and void ----

  /** Cancelling touches one subscription row, and the live grants that subscription owns: no
      manual grant, no grant of another subscription, no other table. */
  lemma {:induction false} CancelOutcome(db: Db, sub: Id, at: Time)
    ensures var after := Cancel(db, sub, at);
            && after == db.(subs := after.subs, grants := after.grants)
            && |after.subs| == |db.subs| && |after.grants| == |db.grants|
            && (forall i :: 0 <= i < |db.subs| && i != sub ==> after.subs[i] == db.subs[i])
            && (sub < |db.subs| ==>
                  var row := db.subs[sub];
                  after.subs[sub] == if row.canceledAt.Some? then row
                                     else if row.endsAt.Some? then row.(canceledAt := Some(at))
                                     else row.(canceledAt := Some(at), endsAt := Some(at)))
            && (forall i :: 0 <= i < |db.grants| ==>
                  var g := db.grants[i];
                  after.grants[i] == if g.subscription == Some(sub) && g.voidedAt.None? then g.(voidedAt := Some(at))
                                     else g)
  {
  }

  /** Voiding one grant marks it once and touches nothing else. */
  lemma {:induction false} VoidOutcome(db: Db, grant: Id, at: Time)
    ensures var after := Void(db, grant, at);
            && after == db.(grants := after.grants) && |after.grants| == |db.grants|
            && (forall i :: 0 <= i < |db.grants| ==>
                  var g := db.grants[i];
                  after.grants[i] == if i == grant && g.voidedAt.None? then g.(voidedAt := Some(at)) else g)
  {
  }

  // ---- Which plans resolve ----

  /** The entry's feature exists, is metered if it is to be granted, and its expiration parses. */
  predicate Resolves(features: seq<bool>, pe: PlanEntry) {
    && pe.feature < |features|
    && (pe.grant.Some? ==> features[pe.feature] && pe.grant.value.expiration != Some(Invalid))
  }

  /** An entry is refused for its expiration only after its feature has been found and is metered. */
  function Refusal(features: seq<bool>, pe: PlanEntry): Error {
    if pe.feature < |features| && features[pe.feature] then InvalidArgument else FailedPrecondition
  }

  /** No expiration, or one that does not parse, is no expiry; any other is its shift, sign ignored,
      of the time the grant takes effect. */
  function Expiring(expiration: Option<ParsedDuration>, effectiveAt: Time): Option<Time> {
    if expiration.Some? && expiration.value.Valid? then Some(WorkerShift(effectiveAt, expiration.value.duration))
    else None
  }

  /** What an entry resolves to. */
  predicate ResolvedTo(e: SubscriptionEntry, pe: PlanEntry, startsAt: Time) {
    && e.feature == pe.feature && e.usage == pe.usage && e.rolloverMax == pe.rollover
    && (e.grant.Some? <==> pe.grant.Some?)
    && (pe.grant.Some? ==>
          && e.grant.value.amount == pe.grant.value.amount
          && e.grant.value.priority == (if pe.grant.value.priority.Some? then pe.grant.value.priority.value else 100)
          && e.grant.value.expiresAt == Expiring(pe.grant.value.expiration, startsAt))
  }

  lemma {:induction false} EntryOutcome(db: Db, pe: PlanEntry, startsAt: Time)
    ensures var built := BuildEntry(db, pe, startsAt);
            && (built.Ok? <==> Resolves(db.features, pe))
            && (built.Ok? ==> ResolvedTo(built.value, pe, startsAt))
            && (built.Err? ==> built.error == Refusal(db.features, pe))
  {
    hide WorkerShift;
  }

  /** A plan resolves entry by entry, or is refused for the first entry that does not. */
  lemma {:induction false} BuildOutcome(db: Db, entries: seq<PlanEntry>, startsAt: Time)
    ensures var built := BuildEntries(db, entries, startsAt);
            && (built.Ok? <==> forall k :: 0 <= k < |entries| ==> Resolves(db.features, entries[k]))
            && (built.Ok? ==> |built.value| == |entries|
                              && forall k :: 0 <= k < |entries| ==> ResolvedTo(built.value[k], entries[k], startsAt))
            && (built.Err? ==> exists k :: 0 <= k < |entries| && !Resolves(db.features, entries[k])
                                           && built.error == Refusal(db.features, entries[k])
                                           && forall j :: 0 <= j < k ==> Resolves(db.features, entries[j]))
  {
    if entries != [] {
      var front, last := entries[..|entries| - 1], entries[|entries| - 1];
      BuildOutcome(db, front, startsAt);
      assert forall k :: 0 <= k < |front| ==> front[k] == entries[k];
      var before := BuildEntries(db, front, startsAt);
      if before.Err? {
        var k :| 0 <= k < |front| && !Resolves(db.features, front[k]) && before.error == Refusal(db.features, front[k])
                 && forall j :: 0 <= j < k ==> Resolves(db.features, front[j]);
        assert entries[k] == front[k];
      } else {
        EntryOutcome(db, last, startsAt);
        hide BuildEntry, Resolves, Refusal, ResolvedTo;
        assert entries[|front|] == last;
      }
    }
  }

  // ---- New entitlements ----

  /** The entitlement each plan entry asks for: its own feature, usage period and rollover cap. */
  function Wanted(entries: seq<PlanEntry>, o: Owner): (rows: seq<EntRow>)
    ensures |rows| == |entries|
    ensures forall k :: 0 <= k < |entries| ==>
              rows[k] == EntRow(o.customer, entries[k].feature, entries[k].usage, entries[k].rollover, o.createdAt,
                                None, Some(o.sub))
  {
    seq(|entries|, k requires 0 <= k < |entries| =>
      EntRow(o.customer, entries[k].feature, entries[k].usage, entries[k].rollover, o.createdAt, None, Some(o.sub)))
  }

  /** A live entitlement of the customer for the feature. */
  predicate Entitling(e: EntRow, customer: Id, feature: Id) {
    e.deletedAt.None? && e.customer == customer && e.feature == feature
  }

  /** The customer holds no live entitlement for the feature. */
  predicate Lacks(ents: seq<EntRow>, customer: Id, feature: Id) {
    forall i :: 0 <= i < |ents| ==> !Entitling(ents[i], customer, feature)
  }

  /** Row `k` is the first wanted for its feature, and the customer has none yet. */
  predicate Missing(before: seq<EntRow>, wanted: seq<EntRow>, k: nat)
    requires k < |wanted|
  {
    && (forall j :: 0 <= j < k ==> wanted[j].feature != wanted[k].feature)
    && Lacks(before, wanted[k].customer, wanted[k].feature)
  }

  /** The row is a missing one. */
  predicate Supplies(e: EntRow, before: seq<EntRow>, wanted: seq<EntRow>) {
    exists k :: 0 <= k < |wanted| && Missing(before, wanted, k) && e == wanted[k]
  }

  /** The missing rows are added, each once, and nothing else; all others stay as they were. */
  predicate AddsMissing(before: seq<EntRow>, after: seq<EntRow>, wanted: seq<EntRow>) {
    && |before| <= |after| && after[..|before|] == before
    && (forall i :: |before| <= i < |after| ==> Supplies(after[i], before, wanted))
    && (forall k :: 0 <= k < |wanted| && Missing(before, wanted, k) ==> wanted[k] in after[|before|..])
    && (forall i, j :: |before| <= i < j < |after| ==> after[i].feature != after[j].feature)
  }

  /** Rows that are all live and all of one customer. */
  predicate LiveOf(rows: seq<EntRow>, customer: Id) {
    forall k :: 0 <= k < |rows| ==> rows[k].deletedAt.None? && rows[k].customer == customer
  }

  lemma {:induction false} NoneMissing(before: seq<EntRow>)
    ensures AddsMissing(before, before, [])
  {
  }

  lemma {:induction false} MissingPrefix(before: seq<EntRow>, wanted: seq<EntRow>, row: EntRow, k: nat)
    requires k < |wanted|
    ensures Missing(before, wanted + [row], k) <==> Missing(before, wanted, k)
  {
    hide Lacks;
    assert forall j :: 0 <= j <= k ==> (wanted + [row])[j] == wanted[j];
  }

  lemma {:induction false} SuppliesPrefix(e: EntRow, before: seq<EntRow>, wanted: seq<EntRow>, row: EntRow)
    requires Supplies(e, before, wanted)
    ensures Supplies(e, before, wanted + [row])
  {
    hide Missing;
    var k :| 0 <= k < |wanted| && Missing(before, wanted, k) && e == wanted[k];
    MissingPrefix(before, wanted, row, k);
    assert (wanted + [row])[k] == wanted[k];
  }

  lemma {:induction false} SuppliedIs(e: EntRow, before: seq<EntRow>, wanted: seq<EntRow>, customer: Id, feature: Id)
    requires Supplies(e, before, wanted) && LiveOf(wanted, customer)
    ensures e.deletedAt.None? && e.customer == customer
    ensures (forall j :: 0 <= j < |wanted| ==> wanted[j].feature != feature) ==> e.feature != feature
  {
    hide Missing;
  }

  lemma {:induction false} LacksBefore(before: seq<EntRow>, after: seq<EntRow>, customer: Id, feature: Id)
    requires |before| <= |after| && after[..|before|] == before && Lacks(after, customer, feature)
    ensures Lacks(before, customer, feature)
    ensures forall e :: e in after[|before|..] ==> !Entitling(e, customer, feature)
  {
    hide Entitling;
    assert forall i :: 0 <= i < |before| ==> before[i] == after[i];
  }

  /** No feature wanted before is still lacked after. */
  lemma {:induction false} WantedIsThere(before: seq<EntRow>, after: seq<EntRow>, wanted: seq<EntRow>, customer: Id,
                                         feature: Id, j: nat)
    requires AddsMissing(before, after, wanted) && LiveOf(wanted, customer) && j < |wanted|
    requires Lacks(after, customer, feature)
    ensures wanted[j].feature != feature
    decreases j
  {
    LacksBefore(before, after, customer, feature);
    hide Lacks, Supplies;
    forall k | 0 <= k < j
      ensures wanted[k].feature != feature
    {
      WantedIsThere(before, after, wanted, customer, feature, k);
    }
  }

  /** One more row is missing exactly if what it entitles to is lacked after the rows before it. */
  lemma {:induction false} LastMissing(before: seq<EntRow>, after: seq<EntRow>, wanted: seq<EntRow>, row: EntRow)
    requires AddsMissing(before, after, wanted) && LiveOf(wanted, row.customer)
    ensures Missing(before, wanted + [row], |wanted|) <==> Lacks(after, row.customer, row.feature)
  {
    var all := wanted + [row];
    assert all[|wanted|] == row && forall k :: 0 <= k < |wanted| ==> all[k] == wanted[k];
    if Lacks(after, row.customer, row.feature) {
      LacksBefore(before, after, row.customer, row.feature);
      hide Lacks;
      forall j | 0 <= j < |wanted|
        ensures wanted[j].feature != row.feature
      {
        WantedIsThere(before, after, wanted, row.customer, row.feature, j);
      }
    }
    if Missing(before, all, |wanted|) {
      hide Supplies;
      forall i | 0 <= i < |after|
        ensures !Entitling(after[i], row.customer, row.feature)
      {
        if i < |before| {
          assert after[..|before|][i] == after[i];
        } else {
          SuppliedIs(after[i], before, wanted, row.customer, row.feature);
        }
      }
    }
  }

  lemma {:induction false} AddRow(before: seq<EntRow>, mid: seq<EntRow>, wanted: seq<EntRow>, row: EntRow)
    requires AddsMissing(before, mid, wanted) && LiveOf(wanted, row.customer)
    requires Lacks(mid, row.customer, row.feature) && row.deletedAt.None?
    ensures AddsMissing(before, mid + [row], wanted + [row])
  {
    var all, after := wanted + [row], mid + [row];
    LastMissing(before, mid, wanted, row);
    LacksBefore(before, mid, row.customer, row.feature);
    assert all[|wanted|] == row && Supplies(row, before, all);
    hide Lacks, Missing, Supplies;
    assert after[|before|..] == mid[|before|..] + [row];
    forall i | |before| <= i < |mid|
      ensures Supplies(after[i], before, all) && after[i].feature != row.feature
    {
      assert after[i] == mid[i] && mid[i] in mid[|before|..];
      SuppliedIs(mid[i], before, wanted, row.customer, row.feature);
      SuppliesPrefix(mid[i], before, wanted, row);
    }
    forall k | 0 <= k < |all| && Missing(before, all, k)
      ensures all[k] in after[|before|..]
    {
      if k < |wanted| {
        MissingPrefix(before, wanted, row, k);
      }
    }
  }

  lemma {:induction false} SkipRow(before: seq<EntRow>, mid: seq<EntRow>, wanted: seq<EntRow>, row: EntRow)
    requires AddsMissing(before, mid, wanted) && LiveOf(wanted, row.customer)
    requires !Lacks(mid, row.customer, row.feature)
    ensures AddsMissing(before, mid, wanted + [row])
  {
    var all := wanted + [row];
    LastMissing(before, mid, wanted, row);
    hide Lacks, Missing, Supplies;
    forall i | |before| <= i < |mid|
      ensures Supplies(mid[i], before, all)
    {
      SuppliesPrefix(mid[i], before, wanted, row);
    }
    forall k | 0 <= k < |all| && Missing(before, all, k)
      ensures all[k] in mid[|before|..]
    {
      assert k != |wanted|;
      MissingPrefix(before, wanted, row, k);
      assert all[k] == wanted[k];
    }
  }

  lemma {:induction false} OneAdds(db: Db, o: Owner, before: seq<EntRow>, wanted: seq<EntRow>, e: SubscriptionEntry)
    requires MaterializeOne(db, o, e).Ok?
    requires AddsMissing(before, db.ents, wanted) && LiveOf(wanted, o.customer)
    ensures AddsMissing(before, MaterializeOne(db, o, e).value.ents, wanted + [NewEnt(o, e)])
  {
    hide AddsMissing, FindEnt;
    if FindEnt(db.ents, o.customer, e.feature).Some? {
      SkipRow(before, db.ents, wanted, NewEnt(o, e));
    } else {
      AddRow(before, db.ents, wanted, NewEnt(o, e));
    }
  }

  lemma {:induction false} AllLive(o: Owner, entries: seq<SubscriptionEntry>, wanted: seq<EntRow>)
    requires |wanted| == |entries| && forall k :: 0 <= k < |entries| ==> wanted[k] == NewEnt(o, entries[k])
    ensures LiveOf(wanted, o.customer)
    ensures entries != [] ==> wanted == wanted[..|entries| - 1] + [NewEnt(o, entries[|entries| - 1])]
  {
  }

  /** Materialising adds the missing entitlements of its entries. */
  lemma {:induction false} MaterializeAdds(db: Db, o: Owner, entries: seq<SubscriptionEntry>, wanted: seq<EntRow>)
    requires Materialize(db, o, entries).Ok? && |wanted| == |entries|
    requires forall k :: 0 <= k < |entries| ==> wanted[k] == NewEnt(o, entries[k])
    ensures AddsMissing(db.ents, Materialize(db, o, entries).value.ents, wanted)
  {
    hide AddsMissing, MaterializeOne, LiveOf, NewEnt;
    if entries == [] {
      NoneMissing(db.ents);
      assert wanted == [];
    } else {
      var front, last := entries[..|entries| - 1], entries[|entries| - 1];
      MaterializeAdds(db, o, front, wanted[..|front|]);
      AllLive(o, front, wanted[..|front|]);
      AllLive(o, entries, wanted);
      OneAdds(Materialize(db, o, front).value, o, db.ents, wanted[..|front|], last);
    }
  }

  // ---- New grants ----

  /** The live grant a plan entry asks for, on a live entitlement of the customer for its feature. */
  predicate GrantedBy(g: GrantRow, pe: PlanEntry, ents: seq<EntRow>, o: Owner) {
    && pe.grant.Some?
    && g.entitlement < |ents| && Entitling(ents[g.entitlement], o.customer, pe.feature)
    && var t := pe.grant.value;
       g == GrantRow(g.entitlement, t.amount, if t.priority.Some? then t.priority.value else 100, o.startsAt,
                     Expiring(t.expiration, o.startsAt), o.createdAt, None, Some(o.sub))
  }

  /** How many of the first `k` entries grant. */
  function Granting(entries: seq<PlanEntry>, k: nat): nat
    requires k <= |entries|
  {
    if k == 0 then 0 else Granting(entries, k - 1) + if entries[k - 1].grant.Some? then 1 else 0
  }

  /** One grant is added for each granting entry, in order, and nothing else. */
  predicate AddsGrants(before: seq<GrantRow>, after: seq<GrantRow>, entries: seq<PlanEntry>, ents: seq<EntRow>,
                       o: Owner)
  {
    && |after| == |before| + Granting(entries, |entries|) && after[..|before|] == before
    && forall k :: 0 <= k < |entries| && entries[k].grant.Some? ==>
         Granting(entries, k) < |after| - |before|
         && GrantedBy(after[|before| + Granting(entries, k)], entries[k], ents, o)
  }

  lemma {:induction false} BearingCount(entries: seq<PlanEntry>, k: nat)
    requires k <= |entries|
    ensures |GrantBearing(entries[..k])| == Granting(entries, k)
  {
    if k > 0 {
      BearingCount(entries, k - 1);
      assert entries[..k][..k - 1] == entries[..k - 1];
    }
  }

  lemma {:induction false} GrantingIs(entries: seq<PlanEntry>, k: nat)
    requires k <= |entries|
    ensures GrantBearing(entries[..k]) <= GrantBearing(entries) && |GrantBearing(entries[..k])| == Granting(entries, k)
    ensures k < |entries| && entries[k].grant.Some? ==>
              Granting(entries, k) < |GrantBearing(entries)|
              && GrantBearing(entries)[Granting(entries, k)] == entries[k]
    decreases |entries| - k
  {
    BearingCount(entries, k);
    if k == |entries| {
      assert entries[..k] == entries;
    } else {
      GrantingIs(entries, k + 1);
      assert entries[..k + 1][..k] == entries[..k] && entries[..k + 1][k] == entries[k];
    }
  }

  lemma {:induction false} RowIsGranted(row: GrantRow, pe: PlanEntry, ents: seq<EntRow>, o: Owner)
    requires RowFor(row, pe, ents, o)
    ensures GrantedBy(row, pe, ents, o)
  {
    hide WorkerShift;
  }

  lemma {:induction false} DeliveredAdds(after: Db, base: seq<GrantRow>, ents: seq<EntRow>, plan: Plan, o: Owner)
    requires Delivered(after, base, ents, plan, o)
    ensures AddsGrants(base, after.grants, plan.entries, after.ents, o)
  {
    var entries := plan.entries;
    hide EntsExtend, RowFor, GrantBearing, GrantedBy, Sellable;
    GrantingIs(entries, |entries|);
    assert entries[..|entries|] == entries;
    forall k | 0 <= k < |entries| && entries[k].grant.Some?
      ensures Granting(entries, k) < |after.grants| - |base|
      ensures GrantedBy(after.grants[|base| + Granting(entries, k)], entries[k], after.ents, o)
    {
      GrantingIs(entries, k);
      RowIsGranted(after.grants[|base| + Granting(entries, k)], entries[k], after.ents, o);
    }
  }

  // ---- Subscribe and change ----

  lemma {:induction false} BuiltWants(checked: Db, db: Db, entries: seq<PlanEntry>, o: Owner)
    requires BuildEntries(checked, entries, o.startsAt).Ok?
    requires Materialize(db, o, BuildEntries(checked, entries, o.startsAt).value).Ok?
    ensures AddsMissing(db.ents, Materialize(db, o, BuildEntries(checked, entries, o.startsAt).value).value.ents,
                        Wanted(entries, o))
  {
    BuildOutcome(checked, entries, o.startsAt);
    hide BuildEntries, Materialize, AddsMissing, Resolves, Expiring;
    MaterializeAdds(db, o, BuildEntries(checked, entries, o.startsAt).value, Wanted(entries, o));
  }

  /** A subscribe adds one active row, the entitlements the customer lacked, with the terms of the
      first entry for each feature, and one grant for each granting entry. All else stays. */
  lemma {:induction false} SubscribeEffects(db: Db, customer: Id, plan: Id, startsAt: Time, endsAt: Option<Time>,
                                            now: Time)
    requires Consistent(db) && Subscribe(db, customer, plan, startsAt, endsAt, now).Ok?
    ensures var after := Subscribe(db, customer, plan, startsAt, endsAt, now).value;
            var o := Owner(|db.subs|, customer, startsAt, now);
            && after == db.(subs := db.subs + [SubRow(customer, plan, startsAt, endsAt, None, now)],
                            ents := after.ents, grants := after.grants)
            && AddsMissing(db.ents, after.ents, Wanted(db.plans[plan].entries, o))
            && AddsGrants(db.grants, after.grants, db.plans[plan].entries, after.ents, o)
  {
    var o := Owner(|db.subs|, customer, startsAt, now);
    var row := SubRow(customer, plan, startsAt, endsAt, None, now);
    SubscribeOutcome(db, customer, plan, startsAt, endsAt, now);
    BuiltWants(db, db.(subs := db.subs + [row]), db.plans[plan].entries, o);
    hide Consistent, Delivered, AddsMissing, AddsGrants, BuildEntries, Materialize;
    DeliveredAdds(Subscribe(db, customer, plan, startsAt, endsAt, now).value, db.grants, db.ents, db.plans[plan], o);
  }

  /** A change switches the row's plan, voids the subscription's own live grants, and adds the
      entitlements the customer lacked and one grant for each granting entry, effective at `at` but
      created, as they say, when the subscription was. All else stays. */
  lemma {:induction false} ChangeEffects(db: Db, sub: Id, plan: Id, at: Time)
    requires Consistent(db) && Change(db, sub, plan, at).Ok?
    ensures var after := Change(db, sub, plan, at).value;
            var o := Owner(sub, db.subs[sub].customer, at, db.subs[sub].createdAt);
            && after == db.(subs := db.subs[sub := db.subs[sub].(plan := plan)], ents := after.ents,
                            grants := after.grants)
            && AddsMissing(db.ents, after.ents, Wanted(db.plans[plan].entries, o))
            && AddsGrants(VoidOwned(db.grants, sub, at), after.grants, db.plans[plan].entries, after.ents, o)
  {
    var o := Owner(sub, db.subs[sub].customer, at, db.subs[sub].createdAt);
    ChangeOutcome(db, sub, plan, at);
    BuiltWants(db, Switched(db, sub, plan, at), db.plans[plan].entries, o);
    hide Consistent, Delivered, AddsMissing, AddsGrants, BuildEntries, Materialize, VoidOwned;
    DeliveredAdds(Change(db, sub, plan, at).value, VoidOwned(db.grants, sub, at), db.ents, db.plans[plan], o);
  }

  // ---- Refusals ----

  /** Every grant is positive, and no feature is granted by two entries. */
  predicate Sells(entries: seq<PlanEntry>) {
    && (forall k :: 0 <= k < |entries| && entries[k].grant.Some? ==> entries[k].grant.value.amount > 0)
    && (forall j, k :: 0 <= j < k < |entries| && entries[j].grant.Some? && entries[k].grant.Some? ==>
          entries[j].feature != entries[k].feature)
  }

  /** Entry `k` is the first that does not resolve, and this is the error for it. */
  predicate Stops(features: seq<bool>, entries: seq<PlanEntry>, k: nat, error: Error)
    requires k < |entries|
  {
    && !Resolves(features, entries[k]) && (forall j :: 0 <= j < k ==> Resolves(features, entries[j]))
    && error == Refusal(features, entries[k])
  }

  /** What becomes of a plan once the other guards have passed. */
  predicate Decides(features: seq<bool>, entries: seq<PlanEntry>, r: Result<Db, Error>) {
    if exists k :: 0 <= k < |entries| && !Resolves(features, entries[k])
    then r.Err? && exists k :: 0 <= k < |entries| && Stops(features, entries, k, r.error)
    else if !Sells(entries) then r == Err(Internal)
    else r.Ok?
  }

  /** The index on active subscriptions, for a customer, a plan and the row to leave out. */
  predicate Taken(subs: seq<SubRow>, customer: Id, plan: Id, except: nat) {
    exists i :: 0 <= i < |subs| && i != except && subs[i].canceledAt.None? && subs[i].customer == customer
                && subs[i].plan == plan
  }

  lemma {:induction false} SellsIffDeliverable(entries: seq<PlanEntry>, built: seq<SubscriptionEntry>, startsAt: Time)
    requires |built| == |entries| && forall k :: 0 <= k < |entries| ==> ResolvedTo(built[k], entries[k], startsAt)
    ensures Sells(entries) <==> Deliverable(built)
  {
    hide Expiring;
  }

  lemma {:induction false} BuildsAndDelivers(checked: Db, db: Db, entries: seq<PlanEntry>, o: Owner)
    requires OwnsNoLive(db.grants, o.sub)
    ensures var built := BuildEntries(checked, entries, o.startsAt);
            && (built.Err? ==> exists k :: 0 <= k < |entries| && Stops(checked.features, entries, k, built.error))
            && (built.Ok? ==> (forall k :: 0 <= k < |entries| ==> Resolves(checked.features, entries[k]))
                              && (Materialize(db, o, built.value).Ok? <==> Sells(entries)))
  {
    var built := BuildEntries(checked, entries, o.startsAt);
    BuildOutcome(checked, entries, o.startsAt);
    hide BuildEntries, Materialize, OwnsNoLive, Resolves, Refusal, ResolvedTo, Sells, Deliverable;
    if built.Ok? {
      MaterializesIffDeliverable(db, o, built.value);
      SellsIffDeliverable(entries, built.value, o.startsAt);
    } else {
      var k :| 0 <= k < |entries| && !Resolves(checked.features, entries[k])
               && built.error == Refusal(checked.features, entries[k])
               && forall j :: 0 <= j < k ==> Resolves(checked.features, entries[j]);
      assert Stops(checked.features, entries, k, built.error);
    }
  }

  lemma {:induction false} NewOwnsNothing(db: Db)
    requires Consistent(db)
    ensures OwnsNoLive(db.grants, |db.subs|)
  {
    forall i | 0 <= i < |db.grants|
      ensures db.grants[i].subscription != Some(|db.subs|)
    {
      assert OwnedWell(db, db.grants[i]);
    }
  }

  /** Exactly when a subscribe is refused, and with which error, in the order of its guards. */
  lemma {:induction false} SubscribeRefusals(db: Db, customer: Id, plan: Id, startsAt: Time, endsAt: Option<Time>,
                                             now: Time)
    requires Consistent(db)
    ensures var r := Subscribe(db, customer, plan, startsAt, endsAt, now);
            if customer >= db.customers || plan >= |db.plans| then r == Err(NotFound)
            else if db.plans[plan].archived then r == Err(FailedPrecondition)
            else if Taken(db.subs, customer, plan, |db.subs|) then r == Err(AlreadyExists)
            else Decides(db.features, db.plans[plan].entries, r)
  {
    if customer < db.customers && plan < |db.plans| {
      var o := Owner(|db.subs|, customer, startsAt, now);
      var inserted := db.(subs := db.subs + [SubRow(customer, plan, startsAt, endsAt, None, now)]);
      NewOwnsNothing(db);
      BuildsAndDelivers(db, inserted, db.plans[plan].entries, o);
      hide BuildEntries, Materialize, Stops, Resolves, Sells, OwnsNoLive, Consistent;
    }
  }

  /** Exactly when a change is refused, and with which error. */
  lemma {:induction false} ChangeRefusals(db: Db, sub: Id, plan: Id, at: Time)
    ensures var r := Change(db, sub, plan, at);
            if sub >= |db.subs| then r == Err(NotFound)
            else if db.subs[sub].canceledAt.Some? then r == Err(FailedPrecondition)
            else if plan >= |db.plans| then r == Err(NotFound)
            else if db.plans[plan].archived then r == Err(FailedPrecondition)
            else if (exists k :: 0 <= k < |db.plans[plan].entries| && !Resolves(db.features, db.plans[plan].entries[k]))
                 || !Taken(db.subs, db.subs[sub].customer, plan, sub)
                 then Decides(db.features, db.plans[plan].entries, r)
            else r == Err(Internal)
  {
    if sub < |db.subs| && plan < |db.plans| {
      var o := Owner(sub, db.subs[sub].customer, at, db.subs[sub].createdAt);
      assert OwnsNoLive(Switched(db, sub, plan, at).grants, sub);
      BuildsAndDelivers(db, Switched(db, sub, plan, at), db.plans[plan].entries, o);
      hide BuildEntries, Materialize, Stops, Resolves, Sells, OwnsNoLive, Switched;
    }
  }

  // ---- Manual operations, plans ----

  /** At most one live entitlement of a customer and feature can be found. */
  lemma {:induction false} FoundIs(ents: seq<EntRow>, customer: Id, feature: Id, ent: Id)
    requires UniqueEnts(ents) && ent < |ents| && Entitling(ents[ent], customer, feature)
    ensures FindEnt(ents, customer, feature) == Some(ent)
  {
    var found := FindEnt(ents, customer, feature);
    hide FindEnt;
    assert found.Some? ==> LiveEnt(ents[found.value]);
  }

  /** A manual grant goes on the customer's live entitlement for the feature; without one, for an
      unknown customer or feature, or for an amount that is not positive, it is refused. */
  lemma {:induction false} TopUpOutcome(db: Db, customer: Id, feature: Id, g: MaterializeGrant, effectiveAt: Time,
                                        now: Time, ent: Id)
    requires Consistent(db)
    ensures var r := TopUp(db, customer, feature, g, effectiveAt, now);
            if customer >= db.customers || feature >= |db.features|
               || Lacks(db.ents, customer, feature)
            then r == Err(NotFound)
            else if g.amount <= 0 then r == Err(Internal)
            else ent < |db.ents| && Entitling(db.ents[ent], customer, feature) ==>
              r == Ok(db.(grants := db.grants
                     + [GrantRow(ent, g.amount, g.priority, effectiveAt, g.expiresAt, now, None, None)]))
  {
    if ent < |db.ents| && Entitling(db.ents[ent], customer, feature) {
      FoundIs(db.ents, customer, feature, ent);
    }
    hide Consistent;
  }

  /** A manual entitlement keeps no anchor and no cap, and is refused where a live one stands. */
  lemma {:induction false} EntitleOutcome(db: Db, customer: Id, feature: Id, usage: Option<ParsedDuration>, now: Time)
    ensures var r := Entitle(db, customer, feature, usage, now);
            if customer >= db.customers || feature >= |db.features| then r == Err(NotFound)
            else if exists i :: 0 <= i < |db.ents| && Entitling(db.ents[i], customer, feature) then r == Err(Internal)
            else r.Ok? && |r.value.ents| == |db.ents| + 1 && r.value.ents[..|db.ents|] == db.ents
                 && r.value == db.(ents := r.value.ents)
                 && var e := r.value.ents[|db.ents|];
                    && Entitling(e, customer, feature) && e.createdAt == now && e.rolloverMax.None?
                    && e.subscription.None? && (e.usage.Some? <==> usage.Some?)
                    && (usage.Some? ==> e.usage.value.duration == usage.value && e.usage.value.anchor.None?)
  {
    var e := EntRow(customer, feature, None, None, now, None, None);
    assert forall i :: 0 <= i < |db.ents| ==>
        (Entitling(db.ents[i], customer, feature)
         <==> LiveEnt(db.ents[i]) && db.ents[i].customer == e.customer && db.ents[i].feature == e.feature);
  }

  /** Deleting an entitlement marks that live row and leaves all others. */
  lemma {:induction false} UnentitleOutcome(db: Db, customer: Id, feature: Id, now: Time)
    requires Consistent(db)
    ensures var after := Unentitle(db, customer, feature, now);
            && after == db.(ents := after.ents) && |after.ents| == |db.ents|
            && forall i :: 0 <= i < |db.ents| ==>
                 after.ents[i] == if Entitling(db.ents[i], customer, feature) then db.ents[i].(deletedAt := Some(now))
                                  else db.ents[i]
  {
    forall i | 0 <= i < |db.ents| && Entitling(db.ents[i], customer, feature)
      ensures FindEnt(db.ents, customer, feature) == Some(i)
    {
      FoundIs(db.ents, customer, feature, i);
    }
    hide Consistent, FindEnt;
  }

  /** Plans are added unarchived once all their features exist, and archived for good. */
  lemma {:induction false} PlanOutcome(db: Db, plan: Plan, id: Id)
    ensures var r := AddPlan(db, plan);
            if forall k :: 0 <= k < |plan.entries| ==> plan.entries[k].feature < |db.features|
            then r == Ok(db.(plans := db.plans + [Plan(plan.entries, plan.recurrence, false)]))
            else r == Err(InvalidArgument)
    ensures var after := Archive(db, id);
            && after == db.(plans := after.plans) && |after.plans| == |db.plans|
            && forall p :: 0 <= p < |db.plans| ==>
                 after.plans[p] == if p == id then Plan(db.plans[p].entries, db.plans[p].recurrence, true)
                                   else db.plans[p]
  {
    if k :| 0 <= k < |plan.entries| && plan.entries[k].feature >= |db.features| {
      assert plan.entries[k] in plan.entries;
    }
  }
}
