/** The store and the handlers on it as they run: tables updated in place, transactions that
    work on their own view and commit at the end, loops over entries and subscriptions. */
module Store {
  import opened Options
  import opened Calendar
  import opened Tables
  import opened Recurrence
  import Effects

  lemma {:induction false} BuildStopsAtError(db: Db, entries: seq<PlanEntry>, startsAt: Time, i: nat)
    requires i <= |entries| && BuildEntries(db, entries[..i], startsAt).Err?
    ensures BuildEntries(db, entries, startsAt) == BuildEntries(db, entries[..i], startsAt)
    decreases |entries| - i
  {
    if i < |entries| {
      assert entries[..i + 1][..i] == entries[..i];
      BuildStopsAtError(db, entries, startsAt, i + 1);
    } else {
      assert entries[..i] == entries;
    }
  }

  lemma {:induction false} MaterializeStopsAtError(db: Db, o: Owner, entries: seq<SubscriptionEntry>, i: nat)
    requires i <= |entries| && Materialize(db, o, entries[..i]).Err?
    ensures Materialize(db, o, entries) == Materialize(db, o, entries[..i])
    decreases |entries| - i
  {
    hide MaterializeOne;
    if i < |entries| {
      assert entries[..i + 1][..i] == entries[..i];
      MaterializeStopsAtError(db, o, entries, i + 1);
    } else {
      assert entries[..i] == entries;
    }
  }

  lemma {:induction false} MaterializeKeepsFrame(db: Db, o: Owner, entries: seq<SubscriptionEntry>)
    ensures var r := Materialize(db, o, entries);
            r.Ok? ==> r.value.customers == db.customers && r.value.features == db.features
  {
    if entries != [] {
      MaterializeKeepsFrame(db, o, entries[..|entries| - 1]);
    }
  }

  class Store {
    const customers: nat
    const features: seq<bool>
    var plans: seq<Plan>
    var subs: seq<SubRow>
    var ents: seq<EntRow>
    var grants: seq<GrantRow>

    constructor (customers: nat, features: seq<bool>)
      ensures View() == Db(customers, features, [], [], [], [])
    {
      this.customers, this.features := customers, features;
      plans, subs, ents, grants := [], [], [], [];
    }

    /** All tables, as one value. */
    function View(): Db
      reads this
    {
      Db(customers, features, plans, subs, ents, grants)
    }

    /** Make a transaction's view the tables. */
    method CommitTx(tx: Db)
      requires tx.customers == customers && tx.features == features
      modifies this
      ensures View() == tx
    {
      plans, subs, ents, grants := tx.plans, tx.subs, tx.ents, tx.grants;
    }

    /** `buildSubscriptionEntries`. */
    method BuildSubscriptionEntries(entries: seq<PlanEntry>, startsAt: Time)
      returns (out: Result<seq<SubscriptionEntry>, Error>)
      ensures out == BuildEntries(View(), entries, startsAt)
    {
      var built: seq<SubscriptionEntry> := [];
      for i := 0 to |entries|
        invariant BuildEntries(View(), entries[..i], startsAt) == Ok(built)
      {
        assert entries[..i + 1][..i] == entries[..i];
        var pe := entries[i];
        if pe.feature >= |features| {
          BuildStopsAtError(View(), entries, startsAt, i + 1);
          return Err(FailedPrecondition);
        }
        var entry := SubscriptionEntry(pe.feature, pe.usage, pe.rollover, None);
        if pe.grant.Some? {
          if !features[pe.feature] {
            BuildStopsAtError(View(), entries, startsAt, i + 1);
            return Err(FailedPrecondition);
          }
          var g := pe.grant.value;
          var expiresAt: Option<Time> := None;
          if g.expiration.Some? {
            if g.expiration.value.Invalid? {
              BuildStopsAtError(View(), entries, startsAt, i + 1);
              return Err(InvalidArgument);
            }
            expiresAt := Some(WorkerShift(startsAt, g.expiration.value.duration));
          }
          var priority := DEFAULT_PRIORITY;
          if g.priority.Some? {
            priority := g.priority.value;
          }
          entry := entry.(grant := Some(MaterializeGrant(g.amount, priority, expiresAt)));
        }
        built := built + [entry];
      }
      assert entries[..|entries|] == entries;
      return Ok(built);
    }

    /** `materializeEntries` on a transaction's view. */
    static method MaterializeEntries(start: Db, o: Owner, entries: seq<SubscriptionEntry>)
      returns (r: Result<Db, Error>)
      ensures r == Materialize(start, o, entries)
      ensures r.Ok? ==> Effects.AddsMissing(start.ents, r.value.ents, seq(|entries|, k requires 0 <= k < |entries| =>
                EntRow(o.customer, entries[k].feature, entries[k].usage, entries[k].rolloverMax, o.createdAt, None,
                       Some(o.sub))))
    {
      var tx := start;
      for i := 0 to |entries|
        invariant Materialize(start, o, entries[..i]) == Ok(tx)
      {
        assert entries[..i + 1][..i] == entries[..i];
        ghost var before := tx;
        var e := entries[i];
        var entID;
        var found := FindEnt(tx.ents, o.customer, e.feature);
        if found.Some? {
          entID := found.value;
        } else {
          entID := |tx.ents|;
          var ent := EntRow(o.customer, e.feature, e.usage, e.rolloverMax, o.createdAt, None, Some(o.sub));
          tx := tx.(ents := tx.ents + [ent]);
        }
        if e.grant.Some? {
          var g := e.grant.value;
          var grant := GrantRow(entID, g.amount, g.priority, o.startsAt, g.expiresAt, o.createdAt, None, Some(o.sub));
          var inserted := InsertGrant(tx, grant);
          if inserted.Err? {
            MaterializeStopsAtError(start, o, entries, i + 1);
            return Err(inserted.error);
          }
          tx := inserted.value;
        }
        assert MaterializeOne(before, o, e) == Ok(tx);
      }
      assert entries[..|entries|] == entries;
      Effects.MaterializeAdds(start, o, entries, seq(|entries|, k requires 0 <= k < |entries| =>
        EntRow(o.customer, entries[k].feature, entries[k].usage, entries[k].rolloverMax, o.createdAt, None,
               Some(o.sub))));
      return Ok(tx);
    }

    /** CreateSubscription: on any refusal the tables stay as they were. */
    method CreateSubscription(customer: Id, plan: Id, startsAt: Time, endsAt: Option<Time>, now: Time)
      returns (r: Result<Id, Error>)
      modifies this
      ensures r.Ok? <==> Subscribe(old(View()), customer, plan, startsAt, endsAt, now).Ok?
      ensures r.Ok? ==> r.value == |old(subs)|
      ensures r.Ok? ==> View() == Subscribe(old(View()), customer, plan, startsAt, endsAt, now).value
      ensures r.Err? ==> View() == old(View())
      ensures r.Err? ==> r.error == Subscribe(old(View()), customer, plan, startsAt, endsAt, now).error
    {
      hide Materialize, BuildEntries;
      if customer >= customers || plan >= |plans| {
        return Err(NotFound);
      }
      if plans[plan].archived {
        return Err(FailedPrecondition);
      }
      if SubClash(subs, customer, plan, |subs|) {
        return Err(AlreadyExists);
      }
      var entries := BuildSubscriptionEntries(plans[plan].entries, startsAt);
      if entries.Err? {
        return Err(entries.error);
      }
      var sub := |subs|;
      // The guard has just ruled out the only refusal the index could make.
      var inserted := InsertSub(View(), SubRow(customer, plan, startsAt, endsAt, None, now));
      var done := MaterializeEntries(inserted.value, Owner(sub, customer, startsAt, now), entries.value);
      if done.Err? {
        return Err(Internal);
      }
      MaterializeKeepsFrame(inserted.value, Owner(sub, customer, startsAt, now), entries.value);
      CommitTx(done.value);
      return Ok(sub);
    }

    /** CancelSubscription. */
    method CancelSubscription(sub: Id, at: Time)
      modifies this
      ensures View() == Cancel(old(View()), sub, at)
      ensures plans == old(plans) && ents == old(ents) && |subs| == |old(subs)| && |grants| == |old(grants)|
      ensures forall i :: 0 <= i < |grants| ==>
                var g := old(grants)[i];
                grants[i] == if g.subscription == Some(sub) && g.voidedAt.None? then g.(voidedAt := Some(at)) else g
    {
      Effects.CancelOutcome(View(), sub, at);
      var tx := View();
      if sub < |tx.subs| && tx.subs[sub].canceledAt.None? {
        var row := tx.subs[sub].(canceledAt := Some(at));
        if row.endsAt.None? {
          row := row.(endsAt := Some(at));
        }
        tx := tx.(subs := tx.subs[sub := row]);
      }
      tx := tx.(grants := VoidOwned(tx.grants, sub, at));
      CommitTx(tx);
    }

    /** ChangeSubscription up to its transaction: reads only. */
    method CheckSubscriptionChange(sub: Id, plan: Id, at: Time) returns (r: Result<PlannedChange, Error>)
      ensures r == CheckChange(View(), sub, plan, at)
    {
      hide BuildEntries;
      if sub >= |subs| {
        return Err(NotFound);
      }
      var s := subs[sub];
      if s.canceledAt.Some? {
        return Err(FailedPrecondition);
      }
      if plan >= |plans| {
        return Err(NotFound);
      }
      if plans[plan].archived {
        return Err(FailedPrecondition);
      }
      var entries := BuildSubscriptionEntries(plans[plan].entries, at);
      if entries.Err? {
        return Err(entries.error);
      }
      return Ok(PlannedChange(sub, s, plan, at, entries.value));
    }

    /** Its transaction, run on whatever the tables have become: on any refusal they stay as they were. */
    method CommitSubscriptionChange(c: PlannedChange) returns (r: Result<(), Error>)
      modifies this
      ensures r.Ok? <==> CommitChange(old(View()), c).Ok?
      ensures r.Ok? ==> View() == CommitChange(old(View()), c).value
      ensures r.Err? ==> View() == old(View()) && r.error == CommitChange(old(View()), c).error
    {
      hide Materialize;
      if c.sub >= |subs| {
        return Err(Internal);
      }
      var tx := View();
      tx := tx.(grants := VoidOwned(tx.grants, c.sub, c.at));
      if tx.subs[c.sub].canceledAt.None? && SubClash(tx.subs, tx.subs[c.sub].customer, c.plan, c.sub) {
        return Err(Internal);
      }
      tx := tx.(subs := tx.subs[c.sub := tx.subs[c.sub].(plan := c.plan)]);
      assert tx == Switched(View(), c.sub, c.plan, c.at);
      var o := Owner(c.sub, c.row.customer, c.at, c.row.createdAt);
      var done := MaterializeEntries(tx, o, c.entries);
      if done.Err? {
        return Err(Internal);
      }
      MaterializeKeepsFrame(tx, o, c.entries);
      CommitTx(done.value);
      return Ok(());
    }

    /** ChangeSubscription, run alone. */
    method ChangeSubscription(sub: Id, plan: Id, at: Time) returns (r: Result<(), Error>)
      modifies this
      ensures r.Ok? <==> Change(old(View()), sub, plan, at).Ok?
      ensures r.Ok? ==> View() == Change(old(View()), sub, plan, at).value
      ensures r.Err? ==> View() == old(View()) && r.error == Change(old(View()), sub, plan, at).error
    {
      hide CheckChange, CommitChange;
      var checked := CheckSubscriptionChange(sub, plan, at);
      if checked.Err? {
        return Err(checked.error);
      }
      r := CommitSubscriptionChange(checked.value);
    }

    /** VoidGrant. */
    method VoidGrant(grant: Id, at: Time)
      modifies this
      ensures View() == Void(old(View()), grant, at)
    {
      if grant < |grants| && grants[grant].voidedAt.None? {
        grants := grants[grant := grants[grant].(voidedAt := Some(at))];
      }
    }

    /** GetLatestSubscriptionGrant's effective time, voided grants included. */
    method LatestEffective(sub: Id, ent: Id) returns (latest: Option<Time>)
      ensures latest.None? <==> Times(grants, sub, ent) == []
      ensures latest.Some? ==> latest.value == Greatest(Times(grants, sub, ent))
    {
      latest := None;
      for i := 0 to |grants|
        invariant latest.None? <==> Times(grants[..i], sub, ent) == []
        invariant latest.Some? ==> latest.value == Greatest(Times(grants[..i], sub, ent))
      {
        assert grants[..i + 1][..i] == grants[..i];
        var g := grants[i];
        if g.subscription == Some(sub) && g.entitlement == ent {
          ghost var times := Times(grants[..i], sub, ent);
          assert (times + [g.effectiveAt])[..|times|] == times;
          if latest.None? || g.effectiveAt > latest.value {
            latest := Some(g.effectiveAt);
          }
        }
      }
      assert grants[..|grants|] == grants;
    }

    /** One entry of one subscription in a pass. */
    method EmitDue(sub: Id, pe: PlanEntry, d: Duration, now: Time) returns (emitted: bool)
      requires sub < |subs|
      modifies this
      ensures View() == Emit(old(View()), sub, pe, d, now)
      ensures |grants| == |old(grants)| + if emitted then 1 else 0
    {
      hide WorkerShifter, WorkerShift, Greatest, Times, GrantClash;
      emitted := false;
      if pe.grant.None? || pe.feature >= |features| {
        return;
      }
      var found := FindEnt(ents, subs[sub].customer, pe.feature);
      if found.None? {
        return;
      }
      var base := subs[sub].startsAt;
      var last := LatestEffective(sub, found.value);
      if last.Some? {
        base := last.value;
      }
      var nextTime := WorkerShifter(d)(base);
      if nextTime > now {
        return;
      }
      var g := pe.grant.value;
      var priority := DEFAULT_PRIORITY;
      if g.priority.Some? {
        priority := g.priority.value;
      }
      var expiresAt: Option<Time> := None;
      if g.expiration.Some? && g.expiration.value.Valid? {
        expiresAt := Some(WorkerShift(nextTime, g.expiration.value.duration));
      }
      var child := GrantRow(found.value, g.amount, priority, nextTime, expiresAt, now, None, Some(sub));
      assert Prepare(View(), sub, pe, d, now) == Some(child);
      var inserted := InsertGrant(View(), child);
      if inserted.Err? {
        return;
      }
      grants := inserted.value.grants;
      emitted := true;
    }

    /** `processRecurrence`: the subscriptions are listed once, then served one by one. */
    method ProcessRecurrence(now: Time) returns (emitted: nat)
      modifies this
      ensures View() == Pass(old(View()), now)
      ensures |grants| == |old(grants)| + emitted
      ensures plans == old(plans) && subs == old(subs) && ents == old(ents)
    {
      hide Emit;
      emitted := 0;
      ghost var start := View();
      var listed: seq<Id> := [];
      for n := 0 to |subs|
        invariant View() == start && listed == Listed(start, n)
      {
        if Recurring(View(), n) {
          listed := listed + [n];
        }
      }
      ListedIsRecurring(start, |start.subs|);
      for i := 0 to |listed|
        invariant forall s: Id :: s in listed[..i] ==> Recurring(start, s)
        invariant View() == ServeAll(start, listed[..i], now)
        invariant |grants| == |start.grants| + emitted
      {
        assert listed[..i + 1][..i] == listed[..i];
        var sub := listed[i];
        assert sub in listed && Recurring(start, sub);
        var plan := plans[subs[sub].plan];
        if plan.recurrence.value.Valid? {
          var d := plan.recurrence.value.duration;
          ghost var before := View();
          for k := 0 to |plan.entries|
            invariant View() == EmitAll(before, sub, plan.entries[..k], d, now)
            invariant |grants| == |start.grants| + emitted
          {
            assert plan.entries[..k + 1][..k] == plan.entries[..k];
            var one := EmitDue(sub, plan.entries[k], d, now);
            if one {
              emitted := emitted + 1;
            }
          }
          assert plan.entries[..|plan.entries|] == plan.entries;
        }
      }
      assert listed[..|listed|] == listed;
    }
  }
}
