/** Which plan a subscription's live grants are of, when passes and changes interleave: a change
    replaces them by the new plan's, and a pass that listed the old plan may add to them. */
module PlanChanges {
  import opened Options
  import opened Calendar
  import opened Tables
  import opened TableInvariants
  import opened Materializing
  import opened Recurrence
  import opened CatchUp
  import opened Interleaving
  import opened ConcurrentWorkers

  /** The row is what one of the entries grants for the feature it is on. */
  predicate GrantedBy(row: GrantRow, ents: seq<EntRow>, entries: seq<PlanEntry>) {
    row.entitlement < |ents|
    && exists k :: 0 <= k < |entries| && entries[k].grant.Some? && entries[k].feature == ents[row.entitlement].feature
                   && row.amount == entries[k].grant.value.amount && row.priority == PriorityOf(entries[k].grant.value)
  }

  predicate OfPlan(db: Db, row: GrantRow, sub: Id) {
    sub < |db.subs| && db.subs[sub].plan < |db.plans| && GrantedBy(row, db.ents, db.plans[db.subs[sub].plan].entries)
  }

  /** Every live grant of the subscription is one its plan grants. */
  predicate OnlyOfPlan(db: Db, sub: Id) {
    && sub < |db.subs|
    && forall i :: 0 <= i < |db.grants| && db.grants[i].subscription == Some(sub) && LiveGrant(db.grants[i]) ==>
         OfPlan(db, db.grants[i], sub)
  }

  /** A worker's insert of a row that the plan, as it is now, does not grant is accepted. */
  predicate Strays(w: World, s: Step, sub: Id) {
    && s.Write? && s.worker in w.pending && w.pending[s.worker].subscription == Some(sub)
    && !OfPlan(w.db, w.pending[s.worker], sub) && InsertGrant(w.db, w.pending[s.worker]).Ok?
  }

  // ---- Changes in flight carry their plan's entries ----

  predicate ForPlan(entries: seq<SubscriptionEntry>, asked: seq<PlanEntry>) {
    && |entries| == |asked|
    && forall k :: 0 <= k < |entries| && entries[k].grant.Some? ==>
         entries[k].feature == asked[k].feature && asked[k].grant.Some?
         && entries[k].grant.value.amount == asked[k].grant.value.amount
         && entries[k].grant.value.priority == PriorityOf(asked[k].grant.value)
  }

  lemma {:induction false} BuiltForPlan(db: Db, entries: seq<PlanEntry>, startsAt: Time)
    requires BuildEntries(db, entries, startsAt).Ok?
    ensures ForPlan(BuildEntries(db, entries, startsAt).value, entries)
  {
    if entries != [] {
      BuiltForPlan(db, entries[..|entries| - 1], startsAt);
    }
  }

  predicate Built(c: PlannedChange, db: Db) {
    c.plan < |db.plans| && ForPlan(c.entries, db.plans[c.plan].entries)
  }

  predicate Reviewed(w: World) {
    forall handler :: handler in w.changes ==> Built(w.changes[handler], w.db)
  }

  lemma {:induction false} BuiltLater(c: PlannedChange, db: Db, after: Db)
    requires RestKept(db, after) && Built(c, db)
    ensures Built(c, after)
  {
  }

  lemma {:induction false} PlannedIsBuilt(db: Db, sub: Id, row: SubRow, plan: Id, at: Time)
    ensures var c := PlanChange(db, sub, row, plan, at); c.Ok? ==> Built(c.value, db)
  {
    if PlanChange(db, sub, row, plan, at).Ok? {
      BuiltForPlan(db, db.plans[plan].entries, at);
    }
    hide BuildEntries, ForPlan;
  }

  lemma {:induction false} BuiltSoFar(w: World, s: Step)
    requires Reviewed(w)
    ensures forall handler :: handler in Take(w, s).changes ==> Built(Take(w, s).changes[handler], w.db)
  {
    if s.Review? && s.handler in w.fetched {
      PlannedIsBuilt(w.db, w.fetched[s.handler].sub, w.fetched[s.handler].row, s.plan, s.at);
    }
    hide DecideRow, Worklist, PlanChange, CommitChange, Lifecycle.Step, GrantClash, Built;
  }

  lemma {:induction false} TakeKeepsReviewed(w: World, s: Step)
    requires Reviewed(w) && Spelled(s)
    ensures Reviewed(Take(w, s))
  {
    TakeKeepsRest(w, s);
    BuiltSoFar(w, s);
    hide Take, RestKept, Built;
    forall handler | handler in Take(w, s).changes
      ensures Built(Take(w, s).changes[handler], Take(w, s).db)
    {
      BuiltLater(Take(w, s).changes[handler], w.db, Take(w, s).db);
    }
  }

  // ---- One step ----

  lemma {:induction false} NewRowGranted(ents: seq<EntRow>, o: Owner, entries: seq<SubscriptionEntry>,
                                         asked: seq<PlanEntry>, k: nat)
    requires ForPlan(entries, asked) && k < |NewGrants(ents, o, entries)|
    ensures GrantedBy(NewGrants(ents, o, entries)[k], ents, asked)
  {
    var i := RowHasEntry(ents, o, entries, k);
    hide NewGrants;
    assert asked[i].grant.Some?;
  }

  /** A change leaves exactly its plan's grants live, whatever was live before. */
  lemma {:induction false} CommitSettles(db: Db, c: PlannedChange)
    requires c.plan < |db.plans| && ForPlan(c.entries, db.plans[c.plan].entries) && CommitChange(db, c).Ok?
    ensures OnlyOfPlan(CommitChange(db, c).value, c.sub)
  {
    var o, after := Owner(c.sub, c.row.customer, c.at, c.row.createdAt), CommitChange(db, c).value;
    var base := VoidOwned(db.grants, c.sub, c.at);
    MaterializeLeaves(Switched(db, c.sub, c.plan, c.at), o, c.entries);
    hide CommitChange, Materialize, NewGrants, AllEntitled, EntsExtend, GrantedBy, ForPlan;
    forall i | 0 <= i < |after.grants| && after.grants[i].subscription == Some(c.sub) && LiveGrant(after.grants[i])
      ensures OfPlan(after, after.grants[i], c.sub)
    {
      assert i >= |base|;
      NewRowGranted(after.ents, o, c.entries, db.plans[c.plan].entries, i - |base|);
    }
  }

  lemma {:induction false} SwitchSettles(w: World, handler: nat, sub: Id)
    requires Reviewed(w) && handler in w.changes && w.changes[handler].sub == sub
    requires CommitChange(w.db, w.changes[handler]).Ok?
    ensures OnlyOfPlan(Take(w, Switch(handler)).db, sub)
  {
    CommitSettles(w.db, w.changes[handler]);
    hide CommitChange, OnlyOfPlan;
  }

  /** With the row's plan and the old grants left alone, nothing of the subscription goes astray. */
  lemma {:induction false} LeavesOfPlan(db: Db, after: Db, sub: Id)
    requires Leaves(db, after, sub) && OnlyOfPlan(db, sub)
    ensures OnlyOfPlan(after, sub)
  {
    forall i | 0 <= i < |after.grants| && after.grants[i].subscription == Some(sub) && LiveGrant(after.grants[i])
      ensures OfPlan(after, after.grants[i], sub)
    {
      assert i < |db.grants| && GrantKept(db.grants[i], after.grants[i]);
      assert OfPlan(db, db.grants[i], sub);
    }
  }

  lemma {:induction false} WriteOfPlanIff(w: World, worker: nat, sub: Id)
    requires OnlyOfPlan(w.db, sub) && PendingLive(w)
    ensures OnlyOfPlan(Take(w, Write(worker)).db, sub) <==> !Strays(w, Write(worker), sub)
  {
    hide GrantClash, GrantedBy;
    if Strays(w, Write(worker), sub) {
      assert Take(w, Write(worker)).db.grants[|w.db.grants|] == w.pending[worker];
    }
  }

  lemma {:induction false} StepOfPlanIff(w: World, s: Step, sub: Id)
    requires OnlyOfPlan(w.db, sub) && PendingLive(w) && Reviewed(w) && Spelled(s)
    ensures OnlyOfPlan(Take(w, s).db, sub) <==> !Strays(w, s, sub)
  {
    hide DecideRow, Lifecycle.Step, CommitChange, PlanChange, Worklist, OfPlan, Leaves;
    match s
    case Write(worker) => WriteOfPlanIff(w, worker, sub);
    case Switch(handler) =>
      if handler in w.changes && CommitChange(w.db, w.changes[handler]).Ok? {
        if w.changes[handler].sub == sub {
          SwitchSettles(w, handler, sub);
        } else {
          ChangeLeaves(w.db, w.changes[handler], sub);
          LeavesOfPlan(w.db, Take(w, s).db, sub);
        }
      }
    case Operate(op) =>
      OperationLeaves(w.db, op, sub);
      LeavesOfPlan(w.db, Lifecycle.Step(w.db, op), sub);
    case _ =>
  }

  // ---- Whole runs ----

  lemma {:induction false} ReviewedAt(w: World, steps: seq<Step>, n: nat)
    requires Reviewed(w) && AllSpelled(steps) && n <= |steps|
    ensures Reviewed(At(w, steps, n))
  {
    if n == 0 {
      assert steps[..0] == [];
    } else {
      hide Reviewed, Take, At;
      ReviewedAt(w, steps, n - 1);
      NextStep(w, steps, n - 1);
      TakeKeepsReviewed(At(w, steps, n - 1), steps[n - 1]);
    }
  }

  lemma {:induction false} OfPlanSoFar(w: World, steps: seq<Step>, sub: Id, n: nat)
    requires OnlyOfPlan(w.db, sub) && PendingLive(w) && Reviewed(w) && n <= |steps|
    requires AllSpelled(steps) && forall i :: 0 <= i < |steps| ==> !Strays(At(w, steps, i), steps[i], sub)
    ensures OnlyOfPlan(At(w, steps, n).db, sub)
  {
    if n == 0 {
      assert steps[..0] == [];
    } else {
      hide OnlyOfPlan, Strays, PendingLive, Reviewed, Take, At;
      OfPlanSoFar(w, steps, sub, n - 1);
      PendingLiveAt(w, steps, n - 1);
      ReviewedAt(w, steps, n - 1);
      NextStep(w, steps, n - 1);
      StepOfPlanIff(At(w, steps, n - 1), steps[n - 1], sub);
    }
  }

  /** Over any interleaving of passes, changes and operations: at every point of the run the
      subscription's live grants are ones its plan at that point grants, if and only if no insert
      of a row its plan does not grant is accepted. */
  lemma {:induction false} OfPlanIffNoneStrays(w: World, steps: seq<Step>, sub: Id)
    requires OnlyOfPlan(w.db, sub) && PendingLive(w) && Reviewed(w) && AllSpelled(steps)
    ensures (forall n :: 0 <= n <= |steps| ==> OnlyOfPlan(At(w, steps, n).db, sub))
            <==> (forall n :: 0 <= n < |steps| ==> !Strays(At(w, steps, n), steps[n], sub))
  {
    hide OnlyOfPlan, Strays, PendingLive, Reviewed, Take, At;
    if forall n :: 0 <= n < |steps| ==> !Strays(At(w, steps, n), steps[n], sub) {
      forall n | 0 <= n <= |steps|
        ensures OnlyOfPlan(At(w, steps, n).db, sub)
      {
        OfPlanSoFar(w, steps, sub, n);
      }
    } else {
      var n :| 0 <= n < |steps| && Strays(At(w, steps, n), steps[n], sub);
      PendingLiveAt(w, steps, n);
      ReviewedAt(w, steps, n);
      NextStep(w, steps, n);
      if OnlyOfPlan(At(w, steps, n).db, sub) {
        StepOfPlanIff(At(w, steps, n), steps[n], sub);
        assert !OnlyOfPlan(At(w, steps, n + 1).db, sub);
      }
    }
  }

  // ---- What keeps the grants of one plan ----

  predicate SameFeatures(ents: seq<EntRow>, later: seq<EntRow>) {
    |ents| <= |later| && forall i :: 0 <= i < |ents| ==> later[i].feature == ents[i].feature
  }

  /** A pass that has seen the subscription has seen it with the plan it has now. */
  predicate SeenOnPlan(seen: Db, db: Db, sub: Id)
    requires sub < |db.subs|
  {
    Recurring(seen, sub) ==>
      db.subs[sub].plan < |db.plans| && PlanOf(seen, sub).entries == db.plans[db.subs[sub].plan].entries
  }

  predicate ListsPlan(listing: Listing, db: Db, sub: Id)
    requires sub < |db.subs|
  {
    Past(listing, sub) || (SeenOnPlan(listing.db, db, sub) && SameFeatures(listing.db.ents, db.ents))
  }

  /** So has every pass that has still to come to it, rows held for it are of its plan, and no
      change of it is in flight. */
  predicate InTune(w: World, sub: Id) {
    && OnlyOfPlan(w.db, sub) && Steady(w, sub)
    && (forall worker :: worker in w.seen ==> SeenOnPlan(w.seen[worker], w.db, sub))
    && (forall worker :: worker in w.passes ==> ListsPlan(w.passes[worker], w.db, sub))
    && (forall worker :: worker in w.pending && w.pending[worker].subscription == Some(sub) ==>
          OfPlan(w.db, w.pending[worker], sub))
  }

  lemma {:induction false} DecidesOfPlan(w: World, s: Step, row: GrantRow, sub: Id)
    requires InTune(w, sub) && Decides(w, s, row) && row.subscription == Some(sub)
    ensures OfPlan(w.db, row, sub)
  {
    var listing := w.passes[s.worker];
    assert ListsPlan(listing, w.db, sub);
    assert listing.todo[0].sub == sub;
    assert PlanOf(listing.db, sub).entries[listing.todo[0].k].grant.Some?;
    hide BaseTime, WorkerShifter;
  }

  lemma {:induction false} OfPlanLater(db: Db, after: Db, row: GrantRow, sub: Id)
    requires Leaves(db, after, sub) && OfPlan(db, row, sub)
    ensures OfPlan(after, row, sub)
  {
  }

  lemma {:induction false} SeenOnPlanLater(seen: Db, db: Db, after: Db, sub: Id)
    requires Leaves(db, after, sub) && SeenOnPlan(seen, db, sub)
    ensures SeenOnPlan(seen, after, sub)
  {
  }

  lemma {:induction false} ListsPlanLater(listing: Listing, db: Db, after: Db, sub: Id)
    requires Leaves(db, after, sub) && ListsPlan(listing, db, sub)
    ensures ListsPlan(listing, after, sub)
  {
  }

  /** What a step leaves of the rows and plan the subscription is judged by. */
  lemma {:induction false} JudgedAlike(w: World, s: Step, sub: Id)
    requires InTune(w, sub) && KeepsPlan(s, sub)
    ensures Steady(Take(w, s), sub)
    ensures forall row :: OfPlan(w.db, row, sub) ==> OfPlan(Take(w, s).db, row, sub)
    ensures forall worker :: worker in w.passes ==> ListsPlan(w.passes[worker], Take(w, s).db, sub)
    ensures forall worker :: worker in w.seen ==> SeenOnPlan(w.seen[worker], Take(w, s).db, sub)
  {
    KeepsRow(w, s, sub);
    TakeKeepsSteady(w, s, sub);
    var after := Take(w, s).db;
    hide Take;
    if !s.Write? {
      forall row | OfPlan(w.db, row, sub)
        ensures OfPlan(after, row, sub)
      {
        OfPlanLater(w.db, after, row, sub);
      }
      forall worker | worker in w.passes
        ensures ListsPlan(w.passes[worker], after, sub)
      {
        ListsPlanLater(w.passes[worker], w.db, after, sub);
      }
      forall worker | worker in w.seen
        ensures SeenOnPlan(w.seen[worker], after, sub)
      {
        SeenOnPlanLater(w.seen[worker], w.db, after, sub);
      }
    }
    hide Leaves, OnlyOfPlan, GrantedBy, ListsPlan, SeenOnPlan;
  }

  lemma {:induction false} PassLists(w: World, s: Step, worker: nat, sub: Id)
    requires InTune(w, sub) && worker in Take(w, s).passes && sub < |Take(w, s).db.subs|
    requires forall other :: other in w.passes ==> ListsPlan(w.passes[other], Take(w, s).db, sub)
    requires forall other :: other in w.seen ==> SeenOnPlan(w.seen[other], Take(w, s).db, sub)
    ensures ListsPlan(Take(w, s).passes[worker], Take(w, s).db, sub)
  {
    hide DecideRow, Worklist, PlanChange, CommitChange, Lifecycle.Step, OnlyOfPlan, GrantClash;
  }

  lemma {:induction false} PassSees(w: World, s: Step, worker: nat, sub: Id)
    requires InTune(w, sub) && worker in Take(w, s).seen && sub < |Take(w, s).db.subs|
    requires forall other :: other in w.seen ==> SeenOnPlan(w.seen[other], Take(w, s).db, sub)
    ensures SeenOnPlan(Take(w, s).seen[worker], Take(w, s).db, sub)
  {
    hide DecideRow, Worklist, PlanChange, CommitChange, Lifecycle.Step, OnlyOfPlan, GrantClash;
  }

  lemma {:induction false} StaysInTune(w: World, s: Step, sub: Id)
    requires InTune(w, sub) && PendingLive(w) && Reviewed(w) && KeepsPlan(s, sub)
    ensures InTune(Take(w, s), sub)
  {
    var after := Take(w, s);
    JudgedAlike(w, s, sub);
    StepOfPlanIff(w, s, sub);
    assert !Strays(w, s, sub);
    hide OnlyOfPlan, OfPlan, DecideRow, Worklist, PlanChange, CommitChange, Lifecycle.Step, Reviewed, PendingLive;
    forall worker | worker in after.pending && after.pending[worker].subscription == Some(sub)
      ensures OfPlan(after.db, after.pending[worker], sub)
    {
      HeldOrDecided(w, s, worker);
      if !Holds(w, worker, after.pending[worker]) {
        DecidesOfPlan(w, s, after.pending[worker], sub);
      }
    }
    forall worker | worker in after.passes
      ensures ListsPlan(after.passes[worker], after.db, sub)
    {
      PassLists(w, s, worker, sub);
    }
    forall worker | worker in after.seen
      ensures SeenOnPlan(after.seen[worker], after.db, sub)
    {
      PassSees(w, s, worker, sub);
    }
  }

  /** Once in tune the subscription's live grants stay those of its plan, however passes and
      operations interleave, until the next change of it begins. */
  lemma {:induction false} InTuneForGood(w: World, steps: seq<Step>, sub: Id)
    requires InTune(w, sub) && PendingLive(w) && Reviewed(w) && AllKeepPlan(steps, sub)
    ensures var later := Interleave(w, steps);
            InTune(later, sub) && PendingLive(later) && Reviewed(later)
  {
    hide InTune, PendingLive, Reviewed, Take;
    if steps != [] {
      var mid := Interleave(w, steps[..|steps| - 1]);
      InTuneForGood(w, steps[..|steps| - 1], sub);
      StaysInTune(mid, steps[|steps| - 1], sub);
      TakeKeepsLive(mid, steps[|steps| - 1]);
      TakeKeepsReviewed(mid, steps[|steps| - 1]);
    }
  }

  /** The usable form: a change that commits while no pass has seen the subscription or has it still
      to come, no worker holds a row of it and no other change of it is in flight leaves it with
      its new plan's grants only, until the next change of it begins. */
  lemma {:induction false} ChangeUndisturbedSettles(w: World, handler: nat, steps: seq<Step>, sub: Id)
    requires PendingLive(w) && Reviewed(w) && AllKeepPlan(steps, sub)
    requires handler in w.changes && w.changes[handler].sub == sub && CommitChange(w.db, w.changes[handler]).Ok?
    requires forall other :: other in w.changes && w.changes[other].sub == sub ==> other == handler
    requires forall other :: other in w.fetched ==> w.fetched[other].sub != sub
    requires forall worker :: worker in w.seen ==> !Recurring(w.seen[worker], sub)
    requires forall worker :: worker in w.passes ==> Past(w.passes[worker], sub)
    requires forall worker :: worker in w.pending ==> w.pending[worker].subscription != Some(sub)
    ensures OnlyOfPlan(Interleave(Take(w, Switch(handler)), steps).db, sub)
  {
    SwitchSettles(w, handler, sub);
    TakeKeepsLive(w, Switch(handler));
    TakeKeepsReviewed(w, Switch(handler));
    hide OnlyOfPlan, CommitChange, Reviewed, PendingLive, Interleave;
    InTuneForGood(Take(w, Switch(handler)), steps, sub);
  }

  lemma {:induction false} StrayRowShows(w: World, worker: nat, row: GrantRow, sub: Id)
    requires Holds(w, worker, row) && row.subscription == Some(sub) && LiveGrant(row)
    requires InsertGrant(w.db, row).Ok? && !OfPlan(w.db, row, sub)
    ensures !OnlyOfPlan(Take(w, Write(worker)).db, sub)
  {
    hide GrantClash, GrantedBy;
    assert Take(w, Write(worker)).db.grants[|w.db.grants|] == row;
  }

  /** One failing run: a pass that listed the old plan comes to an entry after the change has
      committed, and its row, which the new plan does not grant, goes in. */
  lemma {:induction false} OldPlanRowGoesIn(w: World, worker: nat, i: nat, row: GrantRow, sub: Id)
    requires worker in w.passes && i < |w.passes[worker].todo|
    requires DecideRow(w.passes[worker], w.db.grants, w.passes[worker].todo[i]) == Some(row)
    requires w.passes[worker].todo[i].sub == sub && !OfPlan(w.db, row, sub) && InsertGrant(w.db, row).Ok?
    ensures !OnlyOfPlan(Take(Interleave(w, Drain(worker, i + 1)), Write(worker)).db, sub)
  {
    DecidedRow(w.passes[worker], w.db.grants, w.passes[worker].todo[i]);
    ComesToHold(w, worker, worker + 1, i, row);
    hide *;
    StrayRowShows(Interleave(w, Drain(worker, i + 1)), worker, row, sub);
  }

  /** Right after a change only its own rows are live, and they start when it takes effect. */
  lemma {:induction false} ClearOfChange(db: Db, c: PlannedChange, row: GrantRow)
    requires CommitChange(db, c).Ok? && row.subscription == Some(c.sub) && row.effectiveAt != c.at
    ensures !GrantClash(CommitChange(db, c).value.grants, row)
  {
    var o, after := Owner(c.sub, c.row.customer, c.at, c.row.createdAt), CommitChange(db, c).value;
    var base := VoidOwned(db.grants, c.sub, c.at);
    MaterializeLeaves(Switched(db, c.sub, c.plan, c.at), o, c.entries);
    hide CommitChange, Materialize, NewGrants, AllEntitled, EntsExtend;
    forall i | 0 <= i < |after.grants|
      ensures !SameEmission(after.grants[i], row)
    {
      if i >= |base| {
        var k := RowHasEntry(after.ents, o, c.entries, i - |base|);
      }
    }
  }

  /** The other: a row decided on before the change goes in after it, unless it starts at the very
      time the change takes effect. */
  lemma {:induction false} HeldAcrossChange(w: World, worker: nat, row: GrantRow, handler: nat, sub: Id)
    requires Holds(w, worker, row) && row.subscription == Some(sub) && LiveGrant(row) && row.amount > 0
    requires handler in w.changes && w.changes[handler].sub == sub && CommitChange(w.db, w.changes[handler]).Ok?
    requires row.effectiveAt != w.changes[handler].at && !OfPlan(Take(w, Switch(handler)).db, row, sub)
    ensures !OnlyOfPlan(Take(Take(w, Switch(handler)), Write(worker)).db, sub)
  {
    ClearOfChange(w.db, w.changes[handler], row);
    hide CommitChange, GrantClash, OfPlan, OnlyOfPlan;
    StrayRowShows(Take(w, Switch(handler)), worker, row, sub);
  }
}
