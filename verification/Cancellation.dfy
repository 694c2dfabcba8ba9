/** When a cancelled subscription can still be given a grant: passes that listed it, and changes of
    it that read its row, before the cancel carry on after it. */
module Cancellation {
  import opened Options
  import opened Calendar
  import opened Tables
  import opened TableInvariants
  import opened Materializing
  import opened Recurrence
  import opened Lifecycle
  import opened CatchUp
  import opened Interleaving

  /** The subscription is active, or owns no live grant. */
  predicate Clean(db: Db, sub: Id) {
    sub < |db.subs|
    && (ActiveSub(db.subs[sub])
        || forall i :: 0 <= i < |db.grants| && db.grants[i].subscription == Some(sub) ==> !LiveGrant(db.grants[i]))
  }

  predicate GrantsAny(entries: seq<SubscriptionEntry>) {
    exists i :: 0 <= i < |entries| && entries[i].grant.Some?
  }

  /** After the cancel, a worker's insert of a row of the subscription is accepted, or so is the
      transaction of a change of it to a plan that grants anything. */
  predicate LateGrant(w: World, s: Step, sub: Id) {
    && sub < |w.db.subs| && !ActiveSub(w.db.subs[sub])
    && match s {
         case Write(worker) =>
           worker in w.pending && w.pending[worker].subscription == Some(sub)
           && InsertGrant(w.db, w.pending[worker]).Ok?
         case Switch(handler) =>
           handler in w.changes && w.changes[handler].sub == sub && GrantsAny(w.changes[handler].entries)
           && CommitChange(w.db, w.changes[handler]).Ok?
         case _ => false
       }
  }

  // ---- One step ----

  lemma {:induction false} OperationKeepsClean(db: Db, op: Op, sub: Id)
    requires Clean(db, sub) && !op.DoPass? && !op.DoChange?
    ensures Clean(Lifecycle.Step(db, op), sub)
  {
    OperationLeaves(db, op, sub);
    hide Subscribe, Change, TopUp, Entitle, Unentitle, AddPlan, Archive, Void;
  }

  lemma {:induction false} EntitledAt(ents: seq<EntRow>, o: Owner, entries: seq<SubscriptionEntry>, i: nat)
    requires AllEntitled(ents, o, entries) && i < |entries|
    ensures FindEnt(ents, o.customer, entries[i].feature).Some?
  {
  }

  lemma {:induction false} RowsIffGrants(ents: seq<EntRow>, o: Owner, entries: seq<SubscriptionEntry>)
    requires AllEntitled(ents, o, entries)
    ensures NewGrants(ents, o, entries) == [] <==> !GrantsAny(entries)
  {
    hide NewGrants, AllEntitled;
    if i :| 0 <= i < |entries| && entries[i].grant.Some? {
      EntitledAt(ents, o, entries, i);
      var k := EntryHasRow(ents, o, entries, i);
    } else if NewGrants(ents, o, entries) != [] {
      var i := RowHasEntry(ents, o, entries, 0);
    }
  }

  lemma {:induction false} OwnsNoneIff(base: seq<GrantRow>, rows: seq<GrantRow>, sub: Id)
    requires OwnsNoLive(base, sub)
    requires forall k :: 0 <= k < |rows| ==> LiveGrant(rows[k]) && rows[k].subscription == Some(sub)
    ensures OwnsNoLive(base + rows, sub) <==> rows == []
  {
    if rows != [] {
      assert (base + rows)[|base|] == rows[0];
    }
  }

  /** The transaction of a change gives its subscription a live grant exactly if the plan grants
      anything. */
  lemma {:induction false} SwitchGives(db: Db, c: PlannedChange)
    requires CommitChange(db, c).Ok?
    ensures OwnsNoLive(CommitChange(db, c).value.grants, c.sub) <==> !GrantsAny(c.entries)
  {
    var o := Owner(c.sub, c.row.customer, c.at, c.row.createdAt);
    var switched := Switched(db, c.sub, c.plan, c.at);
    assert OwnsNoLive(switched.grants, c.sub);
    MaterializeLeaves(switched, o, c.entries);
    var after := CommitChange(db, c).value;
    hide Materialize, EntsExtend, AllEntitled, NewGrants, CommitChange, GrantsAny, OwnsNoLive;
    NewGrantsOwned(after.ents, o, c.entries);
    RowsIffGrants(after.ents, o, c.entries);
    OwnsNoneIff(switched.grants, NewGrants(after.ents, o, c.entries), c.sub);
  }

  lemma {:induction false} SwitchCleanIff(w: World, handler: nat, sub: Id)
    requires Clean(w.db, sub)
    ensures Clean(Take(w, Switch(handler)).db, sub) <==> !LateGrant(w, Switch(handler), sub)
  {
    if handler in w.changes && CommitChange(w.db, w.changes[handler]).Ok? {
      var c := w.changes[handler];
      if c.sub == sub {
        ChangeAdds(w.db, c);
        SwitchGives(w.db, c);
      } else {
        ChangeLeaves(w.db, c, sub);
      }
    }
    hide CommitChange, GrantsAny;
  }

  lemma {:induction false} WriteCleanIff(w: World, worker: nat, sub: Id)
    requires Clean(w.db, sub) && PendingLive(w)
    ensures Clean(Take(w, Write(worker)).db, sub) <==> !LateGrant(w, Write(worker), sub)
  {
    hide GrantClash;
    if LateGrant(w, Write(worker), sub) {
      assert Take(w, Write(worker)).db.grants[|w.db.grants|] == w.pending[worker];
    }
  }

  /** A step leaves a clean subscription clean exactly if it is not a late grant. */
  lemma {:induction false} StepCleanIff(w: World, s: Step, sub: Id)
    requires Clean(w.db, sub) && PendingLive(w) && Spelled(s)
    ensures Clean(Take(w, s).db, sub) <==> !LateGrant(w, s, sub)
  {
    hide DecideRow, Lifecycle.Step, CommitChange, PlanChange, Worklist, Clean;
    match s
    case Write(worker) => WriteCleanIff(w, worker, sub);
    case Switch(handler) => SwitchCleanIff(w, handler, sub);
    case Operate(op) => OperationKeepsClean(w.db, op, sub);
    case _ =>
  }

  // ---- Whole runs ----

  lemma {:induction false} CleanSoFar(w: World, steps: seq<Step>, sub: Id, n: nat)
    requires Clean(w.db, sub) && PendingLive(w) && n <= |steps|
    requires AllSpelled(steps) && forall i :: 0 <= i < |steps| ==> !LateGrant(At(w, steps, i), steps[i], sub)
    ensures Clean(At(w, steps, n).db, sub)
  {
    if n == 0 {
      assert steps[..0] == [];
    } else {
      hide Clean, LateGrant, PendingLive, Take, At;
      CleanSoFar(w, steps, sub, n - 1);
      PendingLiveAt(w, steps, n - 1);
      NextStep(w, steps, n - 1);
      StepCleanIff(At(w, steps, n - 1), steps[n - 1], sub);
    }
  }

  /** Over any interleaving of passes, changes and operations: at every point of the run the
      subscription, if cancelled, owns no live grant, if and only if after the cancel no insert of
      a row of it is accepted and no change of it to a granting plan commits. */
  lemma {:induction false} CleanIffNoLateGrant(w: World, steps: seq<Step>, sub: Id)
    requires Clean(w.db, sub) && PendingLive(w) && AllSpelled(steps)
    ensures (forall n :: 0 <= n <= |steps| ==> Clean(At(w, steps, n).db, sub))
            <==> (forall n :: 0 <= n < |steps| ==> !LateGrant(At(w, steps, n), steps[n], sub))
  {
    hide Clean, LateGrant, PendingLive, Take, At;
    if forall n :: 0 <= n < |steps| ==> !LateGrant(At(w, steps, n), steps[n], sub) {
      forall n | 0 <= n <= |steps|
        ensures Clean(At(w, steps, n).db, sub)
      {
        CleanSoFar(w, steps, sub, n);
      }
    } else {
      var n :| 0 <= n < |steps| && LateGrant(At(w, steps, n), steps[n], sub);
      PendingLiveAt(w, steps, n);
      NextStep(w, steps, n);
      if Clean(At(w, steps, n).db, sub) {
        StepCleanIff(At(w, steps, n), steps[n], sub);
        assert !Clean(At(w, steps, n + 1).db, sub);
      }
    }
  }

  // ---- Decided at the cancel ----

  predicate Insertable(row: GrantRow, sub: Id) {
    row.subscription == Some(sub) && row.amount > 0
  }

  predicate DecidesInsertable(listing: Listing, grants: seq<GrantRow>, sub: Id, i: nat) {
    && i < |listing.todo| && listing.todo[i].sub == sub
    && var row := DecideRow(listing, grants, listing.todo[i]);
       row.Some? && Insertable(row.value, sub)
  }

  predicate Delivers(c: PlannedChange, sub: Id) {
    c.sub == sub && Deliverable(c.entries) && GrantsAny(c.entries)
  }

  predicate Emittable(seen: Db, pe: PlanEntry) {
    pe.grant.Some? && pe.grant.value.amount > 0 && pe.feature < |seen.features|
  }

  /** A pass that has listed the subscription, but no entitlements yet, may find a grant to emit. */
  predicate CouldEmit(seen: Db, sub: Id) {
    && Recurring(seen, sub) && PlanOf(seen, sub).recurrence.value.Valid?
    && exists k :: 0 <= k < |PlanOf(seen, sub).entries| && Emittable(seen, PlanOf(seen, sub).entries[k])
  }

  /** There is a feature that grants can be on. */
  predicate AnyMetered(db: Db) {
    exists f :: 0 <= f < |db.features| && db.features[f]
  }

  /** Some worker holds a row of the subscription that could be inserted; or has it still to come,
      with an entry whose next cycle is due; or has only just listed it; or a change of it, past
      its guards, can deliver; or has read its row, while there is anything to grant. */
  ghost predicate Exposed(w: World, sub: Id) {
    || (exists worker :: worker in w.pending && Insertable(w.pending[worker], sub))
    || (exists worker, i: nat :: worker in w.passes && DecidesInsertable(w.passes[worker], w.db.grants, sub, i))
    || (exists worker :: worker in w.seen && CouldEmit(w.seen[worker], sub))
    || (exists handler :: handler in w.changes && Delivers(w.changes[handler], sub))
    || (AnyMetered(w.db) && exists handler :: handler in w.fetched && w.fetched[handler].sub == sub)
  }

  predicate Cancelled(w: World, sub: Id) {
    Clean(w.db, sub) && !ActiveSub(w.db.subs[sub]) && PendingLive(w)
  }

  /** Nothing clashes with a row of a subscription that owns no live grant. */
  lemma {:induction false} InsertAccepted(w: World, row: GrantRow, sub: Id)
    requires Cancelled(w, sub) && Insertable(row, sub)
    ensures InsertGrant(w.db, row).Ok?
  {
  }

  lemma {:induction false} HeldRowGoesIn(w: World, worker: nat, sub: Id)
    requires Cancelled(w, sub) && worker in w.pending && Insertable(w.pending[worker], sub)
    ensures !Clean(Take(w, Write(worker)).db, sub)
  {
    InsertAccepted(w, w.pending[worker], sub);
    StepCleanIff(w, Write(worker), sub);
  }

  lemma {:induction false} CameToDecision(w: World, after: World, worker: nat, i: nat)
    requires worker in w.passes && i < |w.passes[worker].todo| && CameTo(w, after, worker, i + 1)
    ensures after.db == w.db
    ensures var row := DecideRow(w.passes[worker], w.db.grants, w.passes[worker].todo[i]);
            row.Some? ==> worker in after.pending && after.pending[worker] == row.value
  {
    hide DecideRow;
  }

  lemma {:induction false} DrainHolds(w: World, worker: nat, i: nat, sub: Id)
    requires PendingLive(w) && worker in w.passes && DecidesInsertable(w.passes[worker], w.db.grants, sub, i)
    ensures var after := Interleave(w, Drain(worker, i + 1));
            && after.db == w.db && PendingLive(after)
            && worker in after.pending && Insertable(after.pending[worker], sub)
  {
    var after := Interleave(w, Drain(worker, i + 1));
    hide Interleave, Drain, DecideRow, PendingLive;
    Drained(w, worker, i + 1);
    PendingStaysLive(w, Drain(worker, i + 1));
    CameToDecision(w, after, worker, i);
  }

  lemma {:induction false} DecidedRowGoesIn(w: World, worker: nat, sub: Id, i: nat)
    requires Cancelled(w, sub) && worker in w.passes && DecidesInsertable(w.passes[worker], w.db.grants, sub, i)
    ensures !Clean(Take(Interleave(w, Drain(worker, i + 1)), Write(worker)).db, sub)
  {
    DrainHolds(w, worker, i, sub);
    hide DecidesInsertable, Clean, Interleave, Take, Drain;
    HeldRowGoesIn(Interleave(w, Drain(worker, i + 1)), worker, sub);
  }

  /** With no live grant left and no index in the way, a change commits exactly if it can deliver. */
  lemma {:induction false} CommitsIff(w: World, c: PlannedChange, sub: Id)
    requires Cancelled(w, sub) && c.sub == sub
    ensures CommitChange(w.db, c).Ok? <==> Deliverable(c.entries)
  {
    var switched := Switched(w.db, c.sub, c.plan, c.at);
    assert OwnsNoLive(switched.grants, sub);
    MaterializesIffDeliverable(switched, Owner(c.sub, c.row.customer, c.at, c.row.createdAt), c.entries);
    hide Materialize, Deliverable, SubClash;
  }

  lemma {:induction false} ChangeGoesIn(w: World, handler: nat, sub: Id)
    requires Cancelled(w, sub) && handler in w.changes && Delivers(w.changes[handler], sub)
    ensures !Clean(Take(w, Switch(handler)).db, sub)
  {
    CommitsIff(w, w.changes[handler], sub);
    StepCleanIff(w, Switch(handler), sub);
  }

  // ---- What keeps a cancelled subscription safe lasts ----

  /** With the emitted times unchanged, and nothing new held, still to come or in flight for the
      subscription, it stays as safe as it was. */
  lemma {:induction false} StaysSafe(w: World, after: World, sub: Id)
    requires !Exposed(w, sub)
    requires forall ent: Id :: Times(after.db.grants, sub, ent) == Times(w.db.grants, sub, ent)
    requires forall worker :: worker in after.pending && Insertable(after.pending[worker], sub) ==>
               worker in w.pending && after.pending[worker] == w.pending[worker]
    requires forall worker :: worker in after.passes ==>
               worker in w.passes && after.passes[worker] == w.passes[worker]
    requires forall worker :: worker in after.seen && CouldEmit(after.seen[worker], sub) ==>
               worker in w.seen && after.seen[worker] == w.seen[worker]
    requires forall handler :: handler in after.changes && Delivers(after.changes[handler], sub) ==>
               handler in w.changes && after.changes[handler] == w.changes[handler]
    requires forall handler :: handler in after.fetched && after.fetched[handler].sub == sub ==>
               handler in w.fetched && w.fetched[handler].sub == sub
    requires after.db.features == w.db.features
    ensures !Exposed(after, sub)
  {
    hide DecideRow, Times, Insertable, Delivers, CouldEmit;
    forall worker, i: nat | worker in after.passes
      ensures !DecidesInsertable(after.passes[worker], after.db.grants, sub, i)
    {
      var listing := w.passes[worker];
      if i < |listing.todo| && listing.todo[i].sub == sub {
        DatedByTimes(listing, listing, w.db.grants, after.db.grants, listing.todo[i]);
      }
      assert !DecidesInsertable(listing, w.db.grants, sub, i);
    }
  }

  /** A pass begun after the cancel does not list the subscription. */
  lemma {:induction false} OpensSafely(w: World, worker: nat, sub: Id)
    requires Cancelled(w, sub) && !Exposed(w, sub)
    ensures !Exposed(Take(w, Open(worker)), sub)
  {
    hide Exposed, Clean, Times;
    StaysSafe(w, Take(w, Open(worker)), sub);
  }

  lemma {:induction false} LoadedDecides(seen: Db, ents: seq<EntRow>, now: Time, grants: seq<GrantRow>, sub: Id, i: nat)
    requires DecidesInsertable(ListingOf(seen, ents, now), grants, sub, i)
    ensures CouldEmit(seen, sub)
  {
    hide Worklist, BaseTime, WorkerShifter;
    assert Emittable(seen, PlanOf(seen, sub).entries[Worklist(seen)[i].k]);
  }

  /** A pass finds to emit only what it could have found when it listed the subscriptions. */
  lemma {:induction false} LoadsSafely(w: World, worker: nat, now: Time, sub: Id)
    requires !Exposed(w, sub) && worker in w.seen
    ensures !Exposed(Take(w, Load(worker, now)), sub)
  {
    var after := Take(w, Load(worker, now));
    forall other, i: nat | other in after.passes
      ensures !DecidesInsertable(after.passes[other], after.db.grants, sub, i)
    {
      if other == worker {
        if DecidesInsertable(after.passes[worker], after.db.grants, sub, i) {
          LoadedDecides(w.seen[worker], w.db.ents, now, w.db.grants, sub, i);
        }
      } else {
        assert !DecidesInsertable(w.passes[other], w.db.grants, sub, i);
      }
    }
    hide DecidesInsertable, Worklist, Delivers, CouldEmit, Insertable;
  }

  /** The head of a worklist is a decision that was still to come. */
  lemma {:induction false} HeadSafe(w: World, worker: nat, sub: Id)
    requires !Exposed(w, sub) && worker in w.passes && w.passes[worker].todo != []
    ensures var row := DecideRow(w.passes[worker], w.db.grants, w.passes[worker].todo[0]);
            row.Some? ==> !Insertable(row.value, sub)
  {
    var listing := w.passes[worker];
    assert !DecidesInsertable(listing, w.db.grants, sub, 0);
    if DecideRow(listing, w.db.grants, listing.todo[0]).Some? {
      DecidedRow(listing, w.db.grants, listing.todo[0]);
    }
    hide DecideRow;
  }

  lemma {:induction false} DecidesSafely(w: World, worker: nat, sub: Id)
    requires !Exposed(w, sub) && worker in w.passes && w.passes[worker].todo != []
    ensures !Exposed(DecideNext(w, worker), sub)
  {
    HeadSafe(w, worker, sub);
    var after := DecideNext(w, worker);
    forall other, i: nat | other in after.passes
      ensures !DecidesInsertable(after.passes[other], after.db.grants, sub, i)
    {
      var listing := w.passes[other];
      if other == worker {
        assert !DecidesInsertable(listing, w.db.grants, sub, i + 1);
        if i + 1 < |listing.todo| {
          SameListing(listing, after.passes[worker], w.db.grants, listing.todo[i + 1]);
        }
      } else {
        assert !DecidesInsertable(listing, w.db.grants, sub, i);
      }
    }
    hide DecideRow, Insertable, Delivers, CouldEmit;
  }

  lemma {:induction false} WritesSafely(w: World, worker: nat, sub: Id)
    requires Cancelled(w, sub) && !Exposed(w, sub)
    ensures !LateGrant(w, Write(worker), sub) && !Exposed(Take(w, Write(worker)), sub)
  {
    var after := Take(w, Write(worker));
    forall ent: Id
      ensures Times(after.db.grants, sub, ent) == Times(w.db.grants, sub, ent)
    {
      if worker in w.pending {
        TimesAppend(w.db.grants, w.pending[worker], sub, ent);
      }
    }
    hide GrantClash, Times, Clean, Exposed;
    StaysSafe(w, after, sub);
  }

  /** A change to a plan that grants nothing adds no grant row. */
  lemma {:induction false} NothingGranted(db: Db, c: PlannedChange)
    requires CommitChange(db, c).Ok? && !GrantsAny(c.entries)
    ensures |CommitChange(db, c).value.grants| == |db.grants|
  {
    var o := Owner(c.sub, c.row.customer, c.at, c.row.createdAt);
    MaterializeLeaves(Switched(db, c.sub, c.plan, c.at), o, c.entries);
    var after := CommitChange(db, c).value;
    hide Materialize, EntsExtend, AllEntitled, NewGrants;
    if |NewGrants(after.ents, o, c.entries)| > 0 {
      var i := RowHasEntry(after.ents, o, c.entries, 0);
    }
  }

  lemma {:induction false} SameFeatureTable(w: World, s: Step)
    requires Spelled(s)
    ensures Take(w, s).db.features == w.db.features
  {
    TakeKeepsRest(w, s);
    hide Take;
  }

  /** Neither a change of another subscription nor one that cannot deliver emits for this one. */
  lemma {:induction false} SwitchKeepsTimes(w: World, handler: nat, sub: Id)
    requires Cancelled(w, sub) && !Exposed(w, sub) && handler in w.changes
    ensures var after := Settle(w.db, CommitChange(w.db, w.changes[handler]));
            && sub < |after.subs| && !ActiveSub(after.subs[sub])
            && forall ent: Id :: Times(after.grants, sub, ent) == Times(w.db.grants, sub, ent)
    ensures !LateGrant(w, Switch(handler), sub)
  {
    var c := w.changes[handler];
    var after := Settle(w.db, CommitChange(w.db, c));
    if c.sub != sub {
      ChangeLeaves(w.db, c, sub);
      forall ent: Id
        ensures Times(after.grants, sub, ent) == Times(w.db.grants, sub, ent)
      {
        LeavesTimes(w.db, after, sub, ent);
      }
    } else if CommitChange(w.db, c).Ok? {
      CommitsIff(w, c, sub);
      assert !Delivers(c, sub);
      ChangeAdds(w.db, c);
      NothingGranted(w.db, c);
      forall ent: Id
        ensures Times(after.grants, sub, ent) == Times(w.db.grants, sub, ent)
      {
        TimesIgnoreVoids(w.db.grants, after.grants, sub, ent);
      }
    }
    hide CommitChange, Times, Clean, Exposed, Leaves;
  }

  lemma {:induction false} SwitchesSafely(w: World, handler: nat, sub: Id)
    requires Cancelled(w, sub) && !Exposed(w, sub) && handler in w.changes
    ensures !LateGrant(w, Switch(handler), sub) && !Exposed(Take(w, Switch(handler)), sub)
    ensures var after := Take(w, Switch(handler)).db; sub < |after.subs| && !ActiveSub(after.subs[sub])
  {
    SwitchKeepsTimes(w, handler, sub);
    SameFeatureTable(w, Switch(handler));
    hide CommitChange, Times, Clean, Exposed, LateGrant, CouldEmit, Delivers, Insertable, Settle;
    StaysSafe(w, Take(w, Switch(handler)), sub);
  }

  lemma {:induction false} OperatesSafely(w: World, op: Op, sub: Id)
    requires Cancelled(w, sub) && !Exposed(w, sub) && !op.DoPass? && !op.DoChange?
    ensures var after := Take(w, Operate(op));
            !Exposed(after, sub) && sub < |after.db.subs| && !ActiveSub(after.db.subs[sub])
  {
    var after := Lifecycle.Step(w.db, op);
    SameFeatureTable(w, Operate(op));
    OperationLeaves(w.db, op, sub);
    forall ent: Id
      ensures Times(after.grants, sub, ent) == Times(w.db.grants, sub, ent)
    {
      LeavesTimes(w.db, after, sub, ent);
    }
    hide Times, Clean, Lifecycle.Step, Exposed;
    StaysSafe(w, Take(w, Operate(op)), sub);
  }

  lemma {:induction false} FetchReads(w: World, handler: nat, other: Id)
    ensures var after := Take(w, Fetch(handler, other));
            && after == w.(fetched := after.fetched, changes := w.changes - {handler})
            && forall h :: h in after.fetched ==>
                 (h in w.fetched && after.fetched[h] == w.fetched[h])
                 || (after.fetched[h].sub < |w.db.subs| && ActiveSub(w.db.subs[after.fetched[h].sub]))
  {
  }

  /** A change of a cancelled subscription does not get past reading its row. */
  lemma {:induction false} FetchesSafely(w: World, handler: nat, other: Id, sub: Id)
    requires Cancelled(w, sub) && !Exposed(w, sub)
    ensures !Exposed(Take(w, Fetch(handler, other)), sub)
  {
    FetchReads(w, handler, other);
    hide Take, Clean, Delivers, Exposed, Times, Insertable, CouldEmit;
    StaysSafe(w, Take(w, Fetch(handler, other)), sub);
  }

  /** Without a feature that grants can be on, no plan grants anything. */
  lemma {:induction false} NothingToGrant(db: Db, entries: seq<PlanEntry>, startsAt: Time)
    requires !AnyMetered(db) && BuildEntries(db, entries, startsAt).Ok?
    ensures !GrantsAny(BuildEntries(db, entries, startsAt).value)
  {
    if entries != [] {
      NothingToGrant(db, entries[..|entries| - 1], startsAt);
    }
  }

  lemma {:induction false} ReviewsSafely(w: World, handler: nat, plan: Id, at: Time, sub: Id)
    requires Cancelled(w, sub) && !Exposed(w, sub) && handler in w.fetched
    ensures !Exposed(ReviewPlan(w, handler, plan, at), sub)
  {
    assert w.fetched[handler].sub == sub ==> !AnyMetered(w.db);
    if w.fetched[handler].sub == sub && PlanChange(w.db, sub, w.fetched[handler].row, plan, at).Ok? {
      NothingToGrant(w.db, w.db.plans[plan].entries, at);
    }
    hide BuildEntries, Clean, Deliverable, GrantsAny, Exposed, Times, AnyMetered, Insertable, CouldEmit;
    StaysSafe(w, ReviewPlan(w, handler, plan, at), sub);
  }

  lemma {:induction false} StaysSafeOnClose(w: World, worker: nat, sub: Id)
    requires !Exposed(w, sub)
    ensures !Exposed(Take(w, Close(worker)), sub)
  {
    hide Exposed;
    StaysSafe(w, Take(w, Close(worker)), sub);
  }

  lemma {:induction false} StaysUnexposed(w: World, s: Step, sub: Id)
    requires Cancelled(w, sub) && !Exposed(w, sub) && Spelled(s)
    ensures Cancelled(Take(w, s), sub) && !Exposed(Take(w, s), sub)
  {
    TakeKeepsLive(w, s);
    StepCleanIff(w, s, sub);
    hide Clean, Exposed, LateGrant, PendingLive, DecideRow, CommitChange, PlanChange, Worklist, Lifecycle.Step;
    match s
    case Open(worker) => OpensSafely(w, worker, sub);
    case Load(worker, now) =>
      if worker in w.seen {
        LoadsSafely(w, worker, now, sub);
      }
    case Decide(worker) =>
      if worker in w.passes && w.passes[worker].todo != [] {
        DecidesSafely(w, worker, sub);
      }
    case Write(worker) => WritesSafely(w, worker, sub);
    case Close(worker) => StaysSafeOnClose(w, worker, sub);
    case Fetch(handler, other) => FetchesSafely(w, handler, other, sub);
    case Review(handler, plan, at) =>
      if handler in w.fetched {
        ReviewsSafely(w, handler, plan, at, sub);
      }
    case Switch(handler) =>
      if handler in w.changes {
        SwitchesSafely(w, handler, sub);
      }
    case Operate(op) => OperatesSafely(w, op, sub);
  }

  lemma {:induction false} UnexposedForGood(w: World, steps: seq<Step>, sub: Id)
    requires Cancelled(w, sub) && !Exposed(w, sub) && AllSpelled(steps)
    ensures Cancelled(Interleave(w, steps), sub) && !Exposed(Interleave(w, steps), sub)
  {
    hide Cancelled, Exposed, Take;
    if steps != [] {
      UnexposedForGood(w, steps[..|steps| - 1], sub);
      StaysUnexposed(Interleave(w, steps[..|steps| - 1]), steps[|steps| - 1], sub);
    }
  }

  /** A run that ends in one given step. */
  lemma {:induction false} EndsIn(w: World, first: seq<Step>, s: Step)
    ensures Interleave(w, first + [s]) == Take(Interleave(w, first), s)
  {
    assert (first + [s])[..|first|] == first;
    hide Take;
  }

  lemma {:induction false} DrainSpelled(worker: nat, n: nat)
    ensures AllSpelled(Drain(worker, n))
  {
    if n > 0 {
      DrainSpelled(worker, n - 1);
    }
  }

  // ---- A pass between its two lists ----

  /** What every run keeps: customers and features are there for those who have seen them. */
  predicate Grounded(w: World, sub: Id) {
    && sub < |w.db.subs| && w.db.subs[sub].customer < w.db.customers
    && forall worker :: worker in w.seen && sub < |w.seen[worker].subs| ==>
         w.seen[worker].subs[sub].customer < w.db.customers && w.seen[worker].features == w.db.features
  }

  lemma {:induction false} TakeKeepsGrounded(w: World, s: Step, sub: Id)
    requires Grounded(w, sub) && Spelled(s)
    ensures Grounded(Take(w, s), sub)
  {
    TakeKeepsRest(w, s);
    hide DecideRow, Worklist, PlanChange, CommitChange, Lifecycle.Step, GrantClash;
  }

  lemma {:induction false} StaysGrounded(w: World, steps: seq<Step>, sub: Id)
    requires Grounded(w, sub) && AllSpelled(steps)
    ensures Grounded(Interleave(w, steps), sub)
  {
    hide Grounded, Take;
    if steps != [] {
      StaysGrounded(w, steps[..|steps| - 1], sub);
      TakeKeepsGrounded(Interleave(w, steps[..|steps| - 1]), steps[|steps| - 1], sub);
    }
  }

  /** An entitlement can be had for any customer and feature there are. */
  lemma {:induction false} EntitlesIfNone(w: World, customer: Id, feature: Id, sub: Id) returns (steps: seq<Step>)
    requires Cancelled(w, sub) && customer < w.db.customers && feature < |w.db.features|
    ensures AllSpelled(steps) && Cancelled(Interleave(w, steps), sub) && Interleave(w, steps).seen == w.seen
    ensures FindEnt(Interleave(w, steps).db.ents, customer, feature).Some?
  {
    if FindEnt(w.db.ents, customer, feature).Some? {
      steps := [];
    } else {
      var entitle := Operate(DoEntitle(customer, feature, None, 0));
      steps := [entitle];
      TwoSteps(w, entitle, entitle);
      StepCleanIff(w, entitle, sub);
    }
  }

  /** The row comes at the time the entry's next cycle is due. */
  lemma {:induction false} LoadsDue(seen: Db, ents: seq<EntRow>, grants: seq<GrantRow>, sub: Id, k: nat)
    returns (now: Time, i: nat)
    requires Recurring(seen, sub) && PlanOf(seen, sub).recurrence.value.Valid?
    requires k < |PlanOf(seen, sub).entries| && Emittable(seen, PlanOf(seen, sub).entries[k])
    requires FindEnt(ents, seen.subs[sub].customer, PlanOf(seen, sub).entries[k].feature).Some?
    ensures DecidesInsertable(ListingOf(seen, ents, now), grants, sub, i)
  {
    var d, pe := PlanOf(seen, sub).recurrence.value.duration, PlanOf(seen, sub).entries[k];
    var ent := FindEnt(ents, seen.subs[sub].customer, pe.feature).value;
    now := WorkerShifter(d)(BaseTime(seen.(ents := ents, grants := grants), sub, ent));
    i := WhereListed(seen, sub, k);
    hide Worklist, BaseTime, WorkerShifter;
  }

  lemma {:induction false} LoadKeepsCancelled(w: World, worker: nat, now: Time, sub: Id)
    requires Cancelled(w, sub) && worker in w.seen
    ensures Cancelled(Take(w, Load(worker, now)), sub)
    ensures var after := Take(w, Load(worker, now));
            after.db == w.db && worker in after.passes
            && after.passes[worker] == ListingOf(w.seen[worker], w.db.ents, now)
  {
    hide Worklist, Clean;
  }

  lemma {:induction false} RunsInTurn(w: World, first: seq<Step>, load: Step, come: seq<Step>, write: Step)
    ensures Interleave(w, first + [load] + come + [write])
            == Take(Interleave(Take(Interleave(w, first), load), come), write)
  {
    hide Take, Interleave;
    EndsIn(w, first, load);
    InterleaveAppend(w, first + [load], come);
    EndsIn(w, first + [load] + come, write);
  }

  lemma {:induction false} SpelledInTurn(first: seq<Step>, worker: nat, now: Time, n: nat)
    requires AllSpelled(first)
    ensures AllSpelled(first + [Load(worker, now)] + Drain(worker, n) + [Write(worker)])
  {
    DrainSpelled(worker, n);
    hide Drain;
  }

  lemma {:induction false} SeenIsDangerous(w: World, worker: nat, sub: Id) returns (steps: seq<Step>)
    requires Cancelled(w, sub) && Grounded(w, sub) && worker in w.seen && CouldEmit(w.seen[worker], sub)
    ensures AllSpelled(steps) && !Clean(Interleave(w, steps).db, sub)
  {
    var seen := w.seen[worker];
    var k :| 0 <= k < |PlanOf(seen, sub).entries| && Emittable(seen, PlanOf(seen, sub).entries[k]);
    var first := EntitlesIfNone(w, seen.subs[sub].customer, PlanOf(seen, sub).entries[k].feature, sub);
    var mid := Interleave(w, first);
    var now, i := LoadsDue(seen, mid.db.ents, mid.db.grants, sub, k);
    hide *;
    LoadKeepsCancelled(mid, worker, now, sub);
    DecidedRowGoesIn(Take(mid, Load(worker, now)), worker, sub, i);
    SpelledInTurn(first, worker, now, i + 1);
    RunsInTurn(w, first, Load(worker, now), Drain(worker, i + 1), Write(worker));
    steps := first + [Load(worker, now)] + Drain(worker, i + 1) + [Write(worker)];
  }

  // ---- A change that has read its row ----

  /** A plan that grants one unit of one feature. */
  function OneUnit(feature: Id): Plan {
    Plan([PlanEntry(feature, None, None, Some(GrantTemplate(1, None, None)))], None, false)
  }

  lemma {:induction false} OneUnitBuilds(db: Db, feature: Id, at: Time)
    requires feature < |db.features| && db.features[feature]
    ensures var built := BuildEntries(db, OneUnit(feature).entries, at);
            built.Ok? && Deliverable(built.value) && GrantsAny(built.value)
  {
    var entries := OneUnit(feature).entries;
    assert entries[..0] == [] && BuildEntries(db, [], at) == Ok([]);
    var built := BuildEntry(db, entries[0], at).value;
    assert BuildEntries(db, entries, at) == Ok([] + [built]);
    assert BuildEntries(db, entries, at).value == [built] && [built][0].grant.Some?;
  }

  /** A plan is added, the change resolves it, and what it carries delivers. */
  lemma {:induction false} FetchedReviews(w: World, handler: nat, feature: Id, sub: Id)
    requires Cancelled(w, sub) && handler in w.fetched && w.fetched[handler].sub == sub
    requires feature < |w.db.features| && w.db.features[feature]
    ensures var later := Take(Take(w, Operate(DoAddPlan(OneUnit(feature)))), Review(handler, |w.db.plans|, 0));
            Cancelled(later, sub) && handler in later.changes && Delivers(later.changes[handler], sub)
  {
    var add := Operate(DoAddPlan(OneUnit(feature)));
    var added := Take(w, add);
    StepCleanIff(w, add, sub);
    OneUnitBuilds(added.db, feature, 0);
    hide BuildEntries, Clean, Deliverable, GrantsAny;
    assert added.db.plans[|w.db.plans|] == OneUnit(feature);
  }

  lemma {:induction false} FetchedIsDangerous(w: World, handler: nat, sub: Id) returns (steps: seq<Step>)
    requires Cancelled(w, sub) && handler in w.fetched && w.fetched[handler].sub == sub && AnyMetered(w.db)
    ensures AllSpelled(steps) && !Clean(Interleave(w, steps).db, sub)
  {
    var feature :| 0 <= feature < |w.db.features| && w.db.features[feature];
    var add, review := Operate(DoAddPlan(OneUnit(feature))), Review(handler, |w.db.plans|, 0);
    FetchedReviews(w, handler, feature, sub);
    hide Cancelled, Clean, Take, Delivers, AnyMetered, OneUnit, Interleave;
    ChangeGoesIn(Take(Take(w, add), review), handler, sub);
    TwoSteps(w, add, review);
    EndsIn(w, [add, review], Switch(handler));
    steps := [add, review] + [Switch(handler)];
  }

  lemma {:induction false} ExposedIsDangerous(w: World, sub: Id) returns (steps: seq<Step>)
    requires Cancelled(w, sub) && Grounded(w, sub) && Exposed(w, sub)
    ensures AllSpelled(steps) && !Clean(Interleave(w, steps).db, sub)
  {
    hide DecideRow, Clean, Take, Interleave, DecidesInsertable, Delivers, Insertable, Cancelled, Drain, CouldEmit,
         AnyMetered, Grounded;
    if worker :| worker in w.pending && Insertable(w.pending[worker], sub) {
      HeldRowGoesIn(w, worker, sub);
      TwoSteps(w, Write(worker), Write(worker));
      steps := [Write(worker)];
    } else if handler :| handler in w.changes && Delivers(w.changes[handler], sub) {
      ChangeGoesIn(w, handler, sub);
      TwoSteps(w, Switch(handler), Switch(handler));
      steps := [Switch(handler)];
    } else if worker :| worker in w.seen && CouldEmit(w.seen[worker], sub) {
      steps := SeenIsDangerous(w, worker, sub);
    } else if handler :| AnyMetered(w.db) && handler in w.fetched && w.fetched[handler].sub == sub {
      steps := FetchedIsDangerous(w, handler, sub);
    } else {
      var worker, i: nat :| worker in w.passes && DecidesInsertable(w.passes[worker], w.db.grants, sub, i);
      DecidedRowGoesIn(w, worker, sub, i);
      DrainSpelled(worker, i + 1);
      EndsIn(w, Drain(worker, i + 1), Write(worker));
      steps := Drain(worker, i + 1) + [Write(worker)];
    }
  }

  /** Exactly when a cancelled subscription that owns no live grant may yet be given one: some
      run does so if and only if, now, a worker holds a row of it, or has it still to come with a
      cycle due, or has only just listed it, or a change of it is past its guards and can deliver,
      or has read its row. */
  lemma {:induction false} EndangeredIffExposed(w: World, sub: Id)
    requires Cancelled(w, sub) && Grounded(w, sub)
    ensures (exists steps :: AllSpelled(steps) && !Clean(Interleave(w, steps).db, sub)) <==> Exposed(w, sub)
  {
    hide Exposed, Clean, Interleave, Grounded;
    if Exposed(w, sub) {
      var steps := ExposedIsDangerous(w, sub);
    } else {
      forall steps | AllSpelled(steps)
        ensures Clean(Interleave(w, steps).db, sub)
      {
        UnexposedForGood(w, steps, sub);
      }
    }
  }

  /** The same in every world that a run from consistent tables comes to. */
  lemma {:induction false} EndangeredInRun(db: Db, before: seq<Step>, sub: Id)
    requires Consistent(db) && sub < |db.subs| && AllSpelled(before)
    requires var w := Interleave(Start(db), before); Clean(w.db, sub) && !ActiveSub(w.db.subs[sub])
    ensures var w := Interleave(Start(db), before);
            (exists steps :: AllSpelled(steps) && !Clean(Interleave(w, steps).db, sub)) <==> Exposed(w, sub)
  {
    assert Grounded(Start(db), sub);
    StaysGrounded(Start(db), before, sub);
    PendingStaysLive(Start(db), before);
    hide Clean, Exposed, Interleave, Grounded, PendingLive, Consistent, AllSpelled;
    EndangeredIffExposed(Interleave(Start(db), before), sub);
  }

  /** Nothing under way concerns the subscription: no pass has it still to come, or has only just
      listed it, no worker holds a row of it, no change of it has read its row. */
  predicate Undisturbed(w: World, sub: Id) {
    && (forall worker :: worker in w.seen ==> !Recurring(w.seen[worker], sub))
    && (forall worker :: worker in w.passes ==> Past(w.passes[worker], sub))
    && (forall worker :: worker in w.pending ==> w.pending[worker].subscription != Some(sub))
    && (forall handler :: handler in w.fetched ==> w.fetched[handler].sub != sub)
    && (forall handler :: handler in w.changes ==> w.changes[handler].sub != sub)
  }

  lemma {:induction false} UndisturbedIsSafe(w: World, sub: Id)
    requires Undisturbed(w, sub)
    ensures !Exposed(w, sub)
  {
    hide DecideRow, Deliverable, GrantsAny;
  }

  /** The usable form: cancel while nothing under way concerns the subscription, and whatever
      happens afterwards it stays cancelled and never owns a live grant again. */
  lemma {:induction false} CancelUndisturbedIsFinal(w: World, at: Time, steps: seq<Step>, sub: Id)
    requires Clean(w.db, sub) && PendingLive(w) && Undisturbed(w, sub) && AllSpelled(steps)
    ensures var later := Interleave(Take(w, Operate(DoCancel(sub, at))), steps).db;
            Clean(later, sub) && !ActiveSub(later.subs[sub])
  {
    var cancelled := Take(w, Operate(DoCancel(sub, at)));
    OperationKeepsClean(w.db, DoCancel(sub, at), sub);
    assert Cancelled(cancelled, sub);
    UndisturbedIsSafe(cancelled, sub);
    hide Exposed, Interleave, Take;
    UnexposedForGood(cancelled, steps, sub);
  }

  // ---- What can outlive the cancel ----

  lemma {:induction false} CancelIsClean(w: World, at: Time, sub: Id)
    requires sub < |w.db.subs| && ActiveSub(w.db.subs[sub]) && PendingLive(w)
    ensures Cancelled(Take(w, Operate(DoCancel(sub, at))), sub)
    ensures var after := Take(w, Operate(DoCancel(sub, at))).db;
            forall ent: Id :: Times(after.grants, sub, ent) == Times(w.db.grants, sub, ent)
  {
    var after := Cancel(w.db, sub, at);
    forall ent: Id
      ensures Times(after.grants, sub, ent) == Times(w.db.grants, sub, ent)
    {
      TimesIgnoreVoids(w.db.grants, after.grants, sub, ent);
    }
  }

  lemma {:induction false} DecidedThenCancelled(w: World, worker: nat, i: nat, at: Time, sub: Id)
    requires sub < |w.db.subs| && ActiveSub(w.db.subs[sub]) && PendingLive(w)
    requires worker in w.passes && DecidesInsertable(w.passes[worker], w.db.grants, sub, i)
    ensures var decided := Interleave(w, Drain(worker, i + 1));
            !Clean(Take(Take(decided, Operate(DoCancel(sub, at))), Write(worker)).db, sub)
  {
    var decided := Interleave(w, Drain(worker, i + 1));
    DrainHolds(w, worker, i, sub);
    hide DecidesInsertable, Clean, Interleave, Drain, PendingLive, Cancelled;
    CancelIsClean(decided, at, sub);
    HeldRowGoesIn(Take(decided, Operate(DoCancel(sub, at))), worker, sub);
  }

  lemma {:induction false} CancelledThenDecided(w: World, worker: nat, i: nat, at: Time, sub: Id)
    requires sub < |w.db.subs| && ActiveSub(w.db.subs[sub]) && PendingLive(w)
    requires worker in w.passes && DecidesInsertable(w.passes[worker], w.db.grants, sub, i)
    ensures var cancelled := Take(w, Operate(DoCancel(sub, at)));
            worker in cancelled.passes && DecidesInsertable(cancelled.passes[worker], cancelled.db.grants, sub, i)
            && !Clean(Take(Interleave(cancelled, Drain(worker, i + 1)), Write(worker)).db, sub)
  {
    var listing, cancelled := w.passes[worker], Take(w, Operate(DoCancel(sub, at)));
    CancelIsClean(w, at, sub);
    hide DecideRow, Times, Clean, Interleave, Drain, PendingLive, Cancelled;
    DatedByTimes(listing, listing, w.db.grants, cancelled.db.grants, listing.todo[i]);
    DecidedRowGoesIn(cancelled, worker, sub, i);
  }

  /** A pass outlives the cancel both ways, whenever it comes to an entry of the subscription whose
      cycle is due: decided before the cancel and inserted after it, or decided after the cancel
      from the listing made before it. */
  lemma {:induction false} CancelledMidPass(w: World, worker: nat, i: nat, at: Time, sub: Id)
    requires sub < |w.db.subs| && ActiveSub(w.db.subs[sub]) && PendingLive(w)
    requires worker in w.passes && DecidesInsertable(w.passes[worker], w.db.grants, sub, i)
    ensures var cancel, come := Operate(DoCancel(sub, at)), Drain(worker, i + 1);
            && !Clean(Take(Take(Interleave(w, come), cancel), Write(worker)).db, sub)
            && !Clean(Take(Interleave(Take(w, cancel), come), Write(worker)).db, sub)
  {
    hide *;
    DecidedThenCancelled(w, worker, i, at, sub);
    CancelledThenDecided(w, worker, i, at, sub);
  }

  lemma {:induction false} ReviewedThenCancelled(db: Db, sub: Id, plan: Id, at: Time, cancelAt: Time)
    requires CheckChange(db, sub, plan, at).Ok?
    ensures var cancel := Operate(DoCancel(sub, cancelAt));
            var late := Take(Take(Take(Start(db), Fetch(0, sub)), Review(0, plan, at)), cancel);
            && Cancelled(late, sub) && 0 in late.changes
            && late.changes[0] == CheckChange(db, sub, plan, at).value
  {
    var reviewed := Take(Take(Start(db), Fetch(0, sub)), Review(0, plan, at));
    CancelIsClean(reviewed, cancelAt, sub);
    hide BuildEntries, Clean;
  }

  lemma {:induction false} BuildsAlike(db: Db, other: Db, entries: seq<PlanEntry>, startsAt: Time)
    requires other.features == db.features
    ensures BuildEntries(other, entries, startsAt) == BuildEntries(db, entries, startsAt)
  {
    if entries != [] {
      BuildsAlike(db, other, entries[..|entries| - 1], startsAt);
    }
  }

  lemma {:induction false} FetchedThenCancelled(db: Db, sub: Id, plan: Id, at: Time, cancelAt: Time)
    requires CheckChange(db, sub, plan, at).Ok?
    ensures var cancel := Operate(DoCancel(sub, cancelAt));
            var late := Take(Take(Take(Start(db), Fetch(0, sub)), cancel), Review(0, plan, at));
            && Cancelled(late, sub) && 0 in late.changes
            && late.changes[0] == CheckChange(db, sub, plan, at).value
  {
    var fetched := Take(Start(db), Fetch(0, sub));
    var cancelled := Take(fetched, Operate(DoCancel(sub, cancelAt)));
    CancelIsClean(fetched, cancelAt, sub);
    StepCleanIff(cancelled, Review(0, plan, at), sub);
    BuildsAlike(db, cancelled.db, db.plans[plan].entries, at);
    hide BuildEntries, Clean;
  }

  lemma {:induction false} SwitchDelivers(w: World, sub: Id)
    requires Cancelled(w, sub) && 0 in w.changes && w.changes[0].sub == sub
    ensures Clean(Take(w, Switch(0)).db, sub) <==> !Delivers(w.changes[0], sub)
  {
    CommitsIff(w, w.changes[0], sub);
    hide Clean, CommitChange, Deliverable, GrantsAny;
    SwitchCleanIff(w, 0, sub);
  }

  lemma {:induction false} ChecksOwn(db: Db, sub: Id, plan: Id, at: Time)
    requires CheckChange(db, sub, plan, at).Ok?
    ensures CheckChange(db, sub, plan, at).value.sub == sub
  {
    hide BuildEntries;
  }

  /** A change outlives the cancel with no pass under way at all, whether its plan is resolved
      before the cancel or after it: once its row has been read, its transaction after the cancel
      leaves the subscription clean exactly if the plan cannot be delivered or grants nothing. */
  lemma {:induction false} CancelledMidChange(db: Db, sub: Id, plan: Id, at: Time, cancelAt: Time)
    requires CheckChange(db, sub, plan, at).Ok?
    ensures var change := CheckChange(db, sub, plan, at).value;
            var fetch, review, cancel := Fetch(0, sub), Review(0, plan, at), Operate(DoCancel(sub, cancelAt));
            var w := Take(Start(db), fetch);
            && (Clean(Take(Take(Take(w, review), cancel), Switch(0)).db, sub) <==> !Delivers(change, sub))
            && (Clean(Take(Take(Take(w, cancel), review), Switch(0)).db, sub) <==> !Delivers(change, sub))
  {
    ReviewedThenCancelled(db, sub, plan, at, cancelAt);
    FetchedThenCancelled(db, sub, plan, at, cancelAt);
    ChecksOwn(db, sub, plan, at);
    hide *;
    var fetch, review, cancel := Fetch(0, sub), Review(0, plan, at), Operate(DoCancel(sub, cancelAt));
    var w := Take(Start(db), fetch);
    SwitchDelivers(Take(Take(w, review), cancel), sub);
    SwitchDelivers(Take(Take(w, cancel), review), sub);
  }
}
