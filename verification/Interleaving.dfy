/** Any number of worker passes and changes of plan under way at once, together with every other
    operation. A pass lists the subscriptions, and then the entitlements of their customers; for
    each entry it reads the latest grant, and later inserts what it decided on. A change reads the
    subscription's row, then resolves its plan, and later runs its transaction. Between any two of
    these, anything else may happen. */
module Interleaving {
  import opened Options
  import opened Calendar
  import opened Tables
  import opened TableInvariants
  import opened Materializing
  import opened Recurrence
  import opened Lifecycle
  import opened CatchUp

  /** One entry of one subscription, as a pass comes to it. */
  datatype Task = Task(sub: Id, k: nat)

  /** What a pass goes by: the subscriptions and plans as ListRecurringSubscriptions saw them, with
      the entitlements as it saw those, its clock, and the entries it has not come to yet. */
  datatype Listing = Listing(db: Db, now: Time, todo: seq<Task>)

  datatype Fetched = Fetched(sub: Id, row: SubRow)

  /** The tables; what passes have seen that have listed subscriptions but not entitlements; the
      passes past that; the rows decided on but not inserted yet; the active rows that handlers of a
      change have read; and the changes of plan between their guards and their transaction. */
  datatype World = World(db: Db, seen: map<nat, Db>, passes: map<nat, Listing>, pending: map<nat, GrantRow>,
                         fetched: map<nat, Fetched>, changes: map<nat, PlannedChange>)

  datatype Step =
    | Open(worker: nat)
    | Load(worker: nat, now: Time)
    | Decide(worker: nat)
    | Write(worker: nat)
    | Close(worker: nat)
    | Fetch(handler: nat, sub: Id)
    | Review(handler: nat, plan: Id, at: Time)
    | Switch(handler: nat)
    | Operate(op: Op)

  function EntryTasks(sub: Id, n: nat): (tasks: seq<Task>)
    ensures |tasks| == n
  {
    seq(n, (k: int) requires 0 <= k => Task(sub, k))
  }

  /** Every entry of every listed subscription, in the order of the pass. */
  function Tasks(db: Db, subs: seq<Id>): seq<Task>
    requires forall s: Id :: s in subs ==> Recurring(db, s)
  {
    if subs == [] then []
    else
      var front, last := subs[..|subs| - 1], subs[|subs| - 1];
      assert forall s: Id :: s in front ==> s in subs;
      assert last in subs && Recurring(db, last);
      Tasks(db, front) + EntryTasks(last, |PlanOf(db, last).entries|)
  }

  function Worklist(db: Db): seq<Task> {
    ListedIsRecurring(db, |db.subs|);
    Tasks(db, Listed(db, |db.subs|))
  }

  /** Where a listed entry stands in the worklist. */
  lemma {:induction false} TaskListed(db: Db, subs: seq<Id>, sub: Id, k: nat) returns (i: nat)
    requires forall s: Id :: s in subs ==> Recurring(db, s)
    requires sub in subs && k < |PlanOf(db, sub).entries|
    ensures i < |Tasks(db, subs)| && Tasks(db, subs)[i] == Task(sub, k)
  {
    var front, last := subs[..|subs| - 1], subs[|subs| - 1];
    assert forall s: Id :: s in front ==> s in subs;
    assert last in subs && Recurring(db, last);
    if last == sub {
      i := |Tasks(db, front)| + k;
    } else {
      i := TaskListed(db, front, sub, k);
    }
  }

  lemma {:induction false} WhereListed(db: Db, sub: Id, k: nat) returns (i: nat)
    requires Recurring(db, sub) && k < |PlanOf(db, sub).entries|
    ensures i < |Worklist(db)| && Worklist(db)[i] == Task(sub, k)
  {
    ListedIsRecurring(db, |db.subs|);
    i := TaskListed(db, Listed(db, |db.subs|), sub, k);
  }

  /** The plans of the listed subscriptions with the entitlements their customers have now. */
  function ListingOf(seen: Db, ents: seq<EntRow>, now: Time): Listing {
    Listing(seen.(ents := ents), now, Worklist(seen))
  }

  /** A listed subscription's entry, dated off the latest grant there is now: the row to insert,
      if its cycle is due. Subscription, plan and entitlements are as listed. */
  function DecideRow(listing: Listing, grants: seq<GrantRow>, task: Task): Option<GrantRow> {
    var db := listing.db;
    if Recurring(db, task.sub) && PlanOf(db, task.sub).recurrence.value.Valid?
       && task.k < |PlanOf(db, task.sub).entries|
    then Prepare(db.(grants := grants), task.sub, PlanOf(db, task.sub).entries[task.k],
                 PlanOf(db, task.sub).recurrence.value.duration, listing.now)
    else None
  }

  /** A pass comes to its next entry. */
  function DecideNext(w: World, worker: nat): World
    requires worker in w.passes && w.passes[worker].todo != []
  {
    var listing := w.passes[worker];
    var row := DecideRow(listing, w.db.grants, listing.todo[0]);
    w.(passes := w.passes[worker := listing.(todo := listing.todo[1..])],
       pending := if row.Some? then w.pending[worker := row.value] else w.pending - {worker})
  }

  /** A handler that has read an active row resolves the plan of its change, or gives up. */
  function ReviewPlan(w: World, handler: nat, plan: Id, at: Time): World
    requires handler in w.fetched
  {
    var c := PlanChange(w.db, w.fetched[handler].sub, w.fetched[handler].row, plan, at);
    w.(fetched := w.fetched - {handler},
       changes := if c.Ok? then w.changes[handler := c.value] else w.changes - {handler})
  }

  /** Workers list, decide, insert and end; handlers of a change read its row, resolve its plan and
      run its transaction; everything else is one operation. */
  function Take(w: World, s: Step): World {
    match s
    case Open(worker) =>
      w.(seen := w.seen[worker := w.db], passes := w.passes - {worker}, pending := w.pending - {worker})
    case Load(worker, now) =>
      if worker in w.seen
      then w.(seen := w.seen - {worker}, passes := w.passes[worker := ListingOf(w.seen[worker], w.db.ents, now)])
      else w
    case Decide(worker) =>
      if worker in w.passes && w.passes[worker].todo != [] then DecideNext(w, worker) else w
    case Write(worker) =>
      if worker in w.pending then w.(db := Commit(w.db, w.pending[worker]), pending := w.pending - {worker}) else w
    case Close(worker) =>
      w.(seen := w.seen - {worker}, passes := w.passes - {worker}, pending := w.pending - {worker})
    case Fetch(handler, sub) =>
      if sub < |w.db.subs| && ActiveSub(w.db.subs[sub])
      then w.(fetched := w.fetched[handler := Fetched(sub, w.db.subs[sub])], changes := w.changes - {handler})
      else w.(fetched := w.fetched - {handler}, changes := w.changes - {handler})
    case Review(handler, plan, at) => if handler in w.fetched then ReviewPlan(w, handler, plan, at) else w
    case Switch(handler) =>
      if handler in w.changes
      then w.(db := Settle(w.db, CommitChange(w.db, w.changes[handler])), changes := w.changes - {handler})
      else w
    case Operate(op) => w.(db := Lifecycle.Step(w.db, op))
  }

  /** Which steps write to the tables, and what. */
  lemma {:induction false} TakeDb(w: World, s: Step)
    ensures Take(w, s).db
            == match s {
                 case Write(worker) => if worker in w.pending then Commit(w.db, w.pending[worker]) else w.db
                 case Switch(handler) =>
                   if handler in w.changes then Settle(w.db, CommitChange(w.db, w.changes[handler])) else w.db
                 case Operate(op) => Lifecycle.Step(w.db, op)
                 case _ => w.db
               }
  {
    hide DecideRow, Worklist, PlanChange, CommitChange, Lifecycle.Step, Commit;
  }

  function Interleave(w: World, steps: seq<Step>): World {
    if steps == [] then w else Take(Interleave(w, steps[..|steps| - 1]), steps[|steps| - 1])
  }

  function Start(db: Db): World { World(db, map[], map[], map[], map[], map[]) }

  lemma {:induction false} TwoSteps(w: World, s: Step, next: Step)
    ensures Interleave(w, [s]) == Take(w, s)
    ensures Interleave(w, [s, next]) == Take(Take(w, s), next)
  {
    assert [s][..0] == [] && [s, next][..1] == [s];
    hide Take;
  }

  lemma {:induction false} InterleaveAppend(w: World, first: seq<Step>, second: seq<Step>)
    ensures Interleave(w, first + second) == Interleave(Interleave(w, first), second)
  {
    hide Take;
    if second == [] {
      assert first + second == first;
    } else {
      var front := second[..|second| - 1];
      InterleaveAppend(w, first, front);
      assert (first + second)[..|first + second| - 1] == first + front;
    }
  }

  // ---- A pass coming to its entries ----

  function Drain(worker: nat, n: nat): seq<Step> {
    if n == 0 then [] else Drain(worker, n - 1) + [Decide(worker)]
  }

  lemma {:induction false} SameListing(listing: Listing, later: Listing, grants: seq<GrantRow>, task: Task)
    requires later == listing.(todo := later.todo)
    ensures DecideRow(listing, grants, task) == DecideRow(later, grants, task)
  {
  }

  /** A pass under way has come to its first `n` entries: the tables stand, and so does the last
      decision. */
  predicate CameTo(w: World, after: World, worker: nat, n: nat)
    requires worker in w.passes && n <= |w.passes[worker].todo|
  {
    var listing := w.passes[worker];
    && after == w.(passes := after.passes, pending := after.pending)
    && after.passes == w.passes[worker := listing.(todo := listing.todo[n..])]
    && after.pending - {worker} == w.pending - {worker}
    && (n > 0 ==>
          match DecideRow(listing, w.db.grants, listing.todo[n - 1]) {
            case Some(row) => worker in after.pending && after.pending[worker] == row
            case None => worker !in after.pending
          })
  }

  lemma {:induction false} ComesToHead(mid: World, worker: nat)
    requires worker in mid.passes && mid.passes[worker].todo != []
    ensures Take(mid, Decide(worker)) == DecideNext(mid, worker)
  {
    hide DecideRow;
  }

  lemma {:induction false} ComesToNext(w: World, mid: World, worker: nat, n: nat)
    requires worker in w.passes && n < |w.passes[worker].todo| && CameTo(w, mid, worker, n)
    ensures CameTo(w, Take(mid, Decide(worker)), worker, n + 1)
  {
    var listing := w.passes[worker];
    SameListing(listing, mid.passes[worker], w.db.grants, listing.todo[n]);
    ComesToHead(mid, worker);
    hide DecideRow, Take;
    assert listing.todo[n..][1..] == listing.todo[n + 1..] && listing.todo[n..][0] == listing.todo[n];
  }

  lemma {:induction false} Drained(w: World, worker: nat, n: nat)
    requires worker in w.passes && n <= |w.passes[worker].todo|
    ensures CameTo(w, Interleave(w, Drain(worker, n)), worker, n)
  {
    hide Take, DecideRow;
    if n == 0 {
      assert w.passes[worker].todo[0..] == w.passes[worker].todo;
    } else {
      hide CameTo;
      Drained(w, worker, n - 1);
      ComesToNext(w, Interleave(w, Drain(worker, n - 1)), worker, n - 1);
      assert Drain(worker, n)[..|Drain(worker, n)| - 1] == Drain(worker, n - 1);
    }
  }

  predicate Holds(w: World, worker: nat, row: GrantRow) {
    worker in w.pending && w.pending[worker] == row
  }

  lemma {:induction false} CameToHold(w: World, after: World, worker: nat, other: nat, n: nat, row: GrantRow)
    requires worker in w.passes && 0 < n <= |w.passes[worker].todo| && worker != other
    requires CameTo(w, after, worker, n)
    requires DecideRow(w.passes[worker], w.db.grants, w.passes[worker].todo[n - 1]) == Some(row)
    ensures after.db == w.db && Holds(after, worker, row)
    ensures Holds(w, other, row) ==> Holds(after, other, row)
    ensures other in w.passes ==> other in after.passes && after.passes[other] == w.passes[other]
  {
    hide DecideRow;
    assert other in w.pending ==> other in (w.pending - {worker});
  }

  /** Coming to the entry, a worker holds its row; what others hold and list is not affected. */
  lemma {:induction false} ComesToHold(w: World, worker: nat, other: nat, i: nat, row: GrantRow)
    requires worker in w.passes && i < |w.passes[worker].todo| && worker != other
    requires DecideRow(w.passes[worker], w.db.grants, w.passes[worker].todo[i]) == Some(row)
    ensures var after := Interleave(w, Drain(worker, i + 1));
            && after.db == w.db && Holds(after, worker, row)
            && (Holds(w, other, row) ==> Holds(after, other, row))
            && (other in w.passes ==> other in after.passes && after.passes[other] == w.passes[other])
  {
    hide *;
    Drained(w, worker, i + 1);
    CameToHold(w, Interleave(w, Drain(worker, i + 1)), worker, other, i + 1, row);
  }

  /** The pass has gone past the subscription, or never listed it. */
  predicate Past(listing: Listing, sub: Id) {
    forall i :: 0 <= i < |listing.todo| ==> listing.todo[i].sub != sub
  }

  /** Passes and changes are spelled out step by step, not taken as one operation. */
  predicate Spelled(s: Step) {
    s.Operate? ==> !s.op.DoPass? && !s.op.DoChange?
  }

  predicate AllSpelled(steps: seq<Step>) {
    forall i :: 0 <= i < |steps| ==> Spelled(steps[i])
  }

  /** Rows wait to be inserted, so none is void. */
  predicate PendingLive(w: World) {
    forall worker :: worker in w.pending ==> LiveGrant(w.pending[worker])
  }

  lemma {:induction false} DecidedRow(listing: Listing, grants: seq<GrantRow>, task: Task)
    requires DecideRow(listing, grants, task).Some?
    ensures var row := DecideRow(listing, grants, task).value;
            LiveGrant(row) && row.subscription == Some(task.sub)
  {
    hide BaseTime, WorkerShifter;
  }

  lemma {:induction false} TakeKeepsLive(w: World, s: Step)
    requires PendingLive(w)
    ensures PendingLive(Take(w, s))
  {
    hide DecideRow, Worklist, PlanChange, CommitChange;
    if s.Decide? && s.worker in w.passes && w.passes[s.worker].todo != [] {
      var task := w.passes[s.worker].todo[0];
      if DecideRow(w.passes[s.worker], w.db.grants, task).Some? {
        DecidedRow(w.passes[s.worker], w.db.grants, task);
      }
    }
  }

  lemma {:induction false} PendingStaysLive(w: World, steps: seq<Step>)
    requires PendingLive(w)
    ensures PendingLive(Interleave(w, steps))
  {
    hide Take, PendingLive;
    if steps != [] {
      PendingStaysLive(w, steps[..|steps| - 1]);
      TakeKeepsLive(Interleave(w, steps[..|steps| - 1]), steps[|steps| - 1]);
    }
  }

  /** The world before step `n`. */
  function At(w: World, steps: seq<Step>, n: nat): World
    requires n <= |steps|
  {
    Interleave(w, steps[..n])
  }

  lemma {:induction false} PendingLiveAt(w: World, steps: seq<Step>, n: nat)
    requires PendingLive(w) && n <= |steps|
    ensures PendingLive(At(w, steps, n))
  {
    PendingStaysLive(w, steps[..n]);
  }

  /** One more step of a run. */
  lemma {:induction false} NextStep(w: World, steps: seq<Step>, n: nat)
    requires n < |steps|
    ensures At(w, steps, n + 1) == Take(At(w, steps, n), steps[n])
  {
    assert steps[..n + 1][..n] == steps[..n];
    hide Take;
  }

  // ---- What an operation leaves of a subscription ----

  /** Old grants at most voided, none new for the subscription, its row and plan still there. */
  predicate Leaves(db: Db, after: Db, sub: Id) {
    && sub < |db.subs| <= |after.subs| && |db.grants| <= |after.grants|
    && (forall i :: 0 <= i < |db.grants| ==> GrantKept(db.grants[i], after.grants[i]))
    && (forall i :: |db.grants| <= i < |after.grants| ==> after.grants[i].subscription != Some(sub))
    && (!ActiveSub(db.subs[sub]) ==> !ActiveSub(after.subs[sub]))
    && after.subs[sub].plan == db.subs[sub].plan && after.subs[sub].startsAt == db.subs[sub].startsAt
    && |db.ents| <= |after.ents| && (forall i :: 0 <= i < |db.ents| ==> EntKept(db.ents[i], after.ents[i]))
    && |db.plans| <= |after.plans|
    && (forall p :: 0 <= p < |db.plans| ==> after.plans[p] == db.plans[p].(archived := after.plans[p].archived))
  }

  lemma {:induction false} NewGrantsOwned(ents: seq<EntRow>, o: Owner, entries: seq<SubscriptionEntry>)
    ensures forall i :: 0 <= i < |NewGrants(ents, o, entries)| ==>
              LiveGrant(NewGrants(ents, o, entries)[i]) && NewGrants(ents, o, entries)[i].subscription == Some(o.sub)
  {
    if entries != [] {
      NewGrantsOwned(ents, o, entries[..|entries| - 1]);
    }
  }

  /** Materialising adds grants for its owner only, and entitlements after the existing ones. */
  lemma {:induction false} MaterializeAdds(db: Db, o: Owner, entries: seq<SubscriptionEntry>)
    requires Materialize(db, o, entries).Ok?
    ensures var r := Materialize(db, o, entries).value;
            && r == db.(ents := r.ents, grants := r.grants)
            && |db.grants| <= |r.grants| && (forall i :: 0 <= i < |db.grants| ==> r.grants[i] == db.grants[i])
            && (forall i :: |db.grants| <= i < |r.grants| ==> r.grants[i].subscription == Some(o.sub))
            && |db.ents| <= |r.ents| && (forall i :: 0 <= i < |db.ents| ==> r.ents[i] == db.ents[i])
  {
    MaterializeLeaves(db, o, entries);
    var r := Materialize(db, o, entries).value;
    NewGrantsOwned(r.ents, o, entries);
    hide Materialize, NewGrants;
    assert forall i :: 0 <= i < |db.ents| ==> r.ents[i] == r.ents[..|db.ents|][i];
  }

  lemma {:induction false} SubscribeLeaves(db: Db, customer: Id, plan: Id, startsAt: Time, endsAt: Option<Time>,
                                           now: Time, sub: Id)
    requires sub < |db.subs|
    ensures Subscribe(db, customer, plan, startsAt, endsAt, now).Ok? ==>
              Leaves(db, Subscribe(db, customer, plan, startsAt, endsAt, now).value, sub)
              && Subscribe(db, customer, plan, startsAt, endsAt, now).value.subs[sub] == db.subs[sub]
  {
    if Subscribe(db, customer, plan, startsAt, endsAt, now).Ok? {
      var inserted := db.(subs := db.subs + [SubRow(customer, plan, startsAt, endsAt, None, now)]);
      var o := Owner(|db.subs|, customer, startsAt, now);
      hide Materialize, BuildEntries;
      MaterializeAdds(inserted, o, BuildEntries(db, db.plans[plan].entries, startsAt).value);
    }
  }

  /** The transaction of a change voids and adds for its own subscription only. */
  lemma {:induction false} ChangeAdds(db: Db, c: PlannedChange)
    requires CommitChange(db, c).Ok?
    ensures var after, base := CommitChange(db, c).value, VoidOwned(db.grants, c.sub, c.at);
            && c.sub < |db.subs|
            && after == db.(subs := db.subs[c.sub := db.subs[c.sub].(plan := c.plan)], ents := after.ents,
                            grants := after.grants)
            && |base| <= |after.grants| && (forall i :: 0 <= i < |base| ==> after.grants[i] == base[i])
            && (forall i :: |base| <= i < |after.grants| ==> after.grants[i].subscription == Some(c.sub))
            && |db.ents| <= |after.ents| && (forall i :: 0 <= i < |db.ents| ==> after.ents[i] == db.ents[i])
  {
    hide Materialize;
    MaterializeAdds(Switched(db, c.sub, c.plan, c.at), Owner(c.sub, c.row.customer, c.at, c.row.createdAt), c.entries);
  }

  lemma {:induction false} ChangeLeaves(db: Db, c: PlannedChange, sub: Id)
    requires sub < |db.subs| && c.sub != sub
    ensures Leaves(db, Settle(db, CommitChange(db, c)), sub)
    ensures Settle(db, CommitChange(db, c)).subs[sub] == db.subs[sub]
  {
    if CommitChange(db, c).Ok? {
      ChangeAdds(db, c);
    }
    hide CommitChange;
  }

  /** Every operation that is not spelled out. */
  lemma {:induction false} OperationLeaves(db: Db, op: Op, sub: Id)
    requires sub < |db.subs| && !op.DoPass? && !op.DoChange?
    ensures Leaves(db, Lifecycle.Step(db, op), sub)
    ensures Lifecycle.Step(db, op).subs[sub] == db.subs[sub] || op.DoCancel?
  {
    hide Subscribe, Change;
    match op
    case DoSubscribe(c, p, startsAt, endsAt, now) => SubscribeLeaves(db, c, p, startsAt, endsAt, now, sub);
    case _ => hide BuildEntries, Materialize, FindEnt;
  }

  // ---- What no step touches ----

  /** Customers and features are fixed, rows stay with their customer, and plans are added and
      archived, their entries never rewritten. */
  predicate RestKept(db: Db, after: Db) {
    && after.customers == db.customers && after.features == db.features
    && |db.subs| <= |after.subs| && (forall i :: 0 <= i < |db.subs| ==> after.subs[i].customer == db.subs[i].customer)
    && |db.plans| <= |after.plans|
    && (forall p :: 0 <= p < |db.plans| ==> after.plans[p].entries == db.plans[p].entries)
  }

  lemma {:induction false} OperationKeepsRest(db: Db, op: Op)
    requires !op.DoPass? && !op.DoChange?
    ensures RestKept(db, Lifecycle.Step(db, op))
  {
    hide GrantClash, Materialize, BuildEntries, FindEnt, VoidOwned;
    if op.DoSubscribe? && Lifecycle.Step(db, op) != db {
      var row := SubRow(op.customer, op.plan, op.startsAt, op.endsAt, None, op.now);
      MaterializeAdds(db.(subs := db.subs + [row]), Owner(|db.subs|, op.customer, op.startsAt, op.now),
                      BuildEntries(db, db.plans[op.plan].entries, op.startsAt).value);
    }
  }

  lemma {:induction false} TakeKeepsRest(w: World, s: Step)
    requires Spelled(s)
    ensures RestKept(w.db, Take(w, s).db)
  {
    TakeDb(w, s);
    hide Take;
    if s.Operate? {
      OperationKeepsRest(w.db, s.op);
    } else if s.Switch? && s.handler in w.changes && CommitChange(w.db, w.changes[s.handler]).Ok? {
      ChangeAdds(w.db, w.changes[s.handler]);
    }
    hide DecideRow, Worklist, PlanChange, CommitChange, GrantClash, Lifecycle.Step, VoidOwned;
  }

  // ---- Emitted times through a run ----

  lemma {:induction false} TimesSkip(grants: seq<GrantRow>, n: nat, sub: Id, ent: Id)
    requires n <= |grants| && forall i :: n <= i < |grants| ==> grants[i].subscription != Some(sub)
    ensures Times(grants, sub, ent) == Times(grants[..n], sub, ent)
    decreases |grants|
  {
    if n < |grants| {
      assert grants[..|grants| - 1][..n] == grants[..n];
      TimesSkip(grants[..|grants| - 1], n, sub, ent);
    } else {
      assert grants[..n] == grants;
    }
  }

  lemma {:induction false} LeavesTimes(db: Db, after: Db, sub: Id, ent: Id)
    requires Leaves(db, after, sub)
    ensures Times(after.grants, sub, ent) == Times(db.grants, sub, ent)
  {
    TimesSkip(after.grants, |db.grants|, sub, ent);
    TimesIgnoreVoids(db.grants, after.grants[..|db.grants|], sub, ent);
  }

  /** A row is dated by nothing but the times emitted so far, and is decided on as listed. */
  lemma {:induction false} DatedByTimes(listing: Listing, later: Listing, grants: seq<GrantRow>, others: seq<GrantRow>,
                                        task: Task)
    requires forall ent: Id :: Times(grants, task.sub, ent) == Times(others, task.sub, ent)
    requires later == listing.(todo := later.todo)
    ensures DecideRow(listing, grants, task) == DecideRow(later, others, task)
  {
    hide Times, WorkerShifter, Greatest, Recurring;
  }
}
