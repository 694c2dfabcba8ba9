/** The recurrence worker (internal/worker/recurrence.go): one grant per due
    (subscription, entry) and pass, dated off the latest one emitted. */
module Recurrence {
  import opened Options
  import opened Calendar
  import opened Tables

  /** ListRecurringSubscriptions: active subscriptions on recurring plans not archived. */
  predicate Recurring(db: Db, sub: Id) {
    && sub < |db.subs| && ActiveSub(db.subs[sub])
    && db.subs[sub].plan < |db.plans|
    && db.plans[db.subs[sub].plan].recurrence.Some?
    && !db.plans[db.subs[sub].plan].archived
  }

  function Listed(db: Db, n: nat): seq<Id>
    requires n <= |db.subs|
  {
    if n == 0 then []
    else if Recurring(db, n - 1) then Listed(db, n - 1) + [n - 1]
    else Listed(db, n - 1)
  }

  predicate Increasing(ids: seq<Id>) {
    forall i, j :: 0 <= i < j < |ids| ==> ids[i] < ids[j]
  }

  predicate EmittedFor(g: GrantRow, sub: Id, ent: Id) {
    g.subscription == Some(sub) && g.entitlement == ent
  }

  /** The effective times of the grants a subscription has had on an entitlement, voided
      ones included, in the order they were inserted. */
  function Times(grants: seq<GrantRow>, sub: Id, ent: Id): seq<Time> {
    if grants == [] then []
    else
      var g := grants[|grants| - 1];
      var rest := Times(grants[..|grants| - 1], sub, ent);
      if EmittedFor(g, sub, ent) then rest + [g.effectiveAt] else rest
  }

  function Greatest(times: seq<Time>): (t: Time)
    requires times != []
    ensures t in times && forall u :: u in times ==> u <= t
  {
    var front, last := times[..|times| - 1], times[|times| - 1];
    assert forall u :: u in times <==> u in front || u == last;
    if front == [] then last
    else
      var rest := Greatest(front);
      if last > rest then last else rest
  }

  /** What the next cycle is dated off: GetLatestSubscriptionGrant's effective time, or the
      start of the subscription when there is no grant yet. */
  function BaseTime(db: Db, sub: Id, ent: Id): Time
    requires sub < |db.subs|
  {
    var times := Times(db.grants, sub, ent);
    if times == [] then db.subs[sub].startsAt else Greatest(times)
  }

  /** Read side of one entry: the row to insert, if the next cycle is due by `now`. */
  function Prepare(db: Db, sub: Id, pe: PlanEntry, d: Duration, now: Time): Option<GrantRow>
    requires sub < |db.subs|
  {
    if pe.grant.None? || pe.feature >= |db.features| then None
    else
      var ent := FindEnt(db.ents, db.subs[sub].customer, pe.feature);
      if ent.None? then None
      else
        var next := WorkerShifter(d)(BaseTime(db, sub, ent.value));
        if next > now then None
        else
          var g := pe.grant.value;
          Some(GrantRow(ent.value, g.amount, PriorityOf(g), next, ExpiryOf(g, next), now, None, Some(sub)))
  }

  /** Write side: a refused insert is logged and skipped. */
  function Commit(db: Db, row: GrantRow): Db {
    var r := InsertGrant(db, row);
    if r.Ok? then r.value else db
  }

  function Emit(db: Db, sub: Id, pe: PlanEntry, d: Duration, now: Time): Db
    requires sub < |db.subs|
  {
    var row := Prepare(db, sub, pe, d, now);
    if row.None? then db else Commit(db, row.value)
  }

  function EmitAll(db: Db, sub: Id, entries: seq<PlanEntry>, d: Duration, now: Time): (r: Db)
    requires sub < |db.subs|
    ensures r == db.(grants := r.grants)
  {
    if entries == [] then db
    else Emit(EmitAll(db, sub, entries[..|entries| - 1], d, now), sub, entries[|entries| - 1], d, now)
  }

  /** One subscription of a pass; an unparsable interval skips it. */
  function Serve(db: Db, sub: Id, now: Time): (r: Db)
    requires Recurring(db, sub)
    ensures r == db.(grants := r.grants)
  {
    var plan := db.plans[db.subs[sub].plan];
    match plan.recurrence.value
    case Invalid => db
    case Valid(d) => EmitAll(db, sub, plan.entries, d, now)
  }

  function ServeAll(db: Db, subs: seq<Id>, now: Time): (r: Db)
    requires forall s: Id :: s in subs ==> Recurring(db, s)
    ensures r == db.(grants := r.grants)
  {
    if subs == [] then db
    else
      var front, last := subs[..|subs| - 1], subs[|subs| - 1];
      assert forall s: Id :: s in front ==> s in subs;
      assert last in subs;
      var before := ServeAll(db, front, now);
      assert Recurring(db, last);
      Serve(before, last, now)
  }

  lemma {:induction false} ListedIsRecurring(db: Db, n: nat)
    requires n <= |db.subs|
    ensures forall s: Id :: s in Listed(db, n) <==> s < n && Recurring(db, s)
    ensures Increasing(Listed(db, n))
  {
    if n > 0 {
      ListedIsRecurring(db, n - 1);
      var front := Listed(db, n - 1);
      forall i | 0 <= i < |front|
        ensures front[i] < n - 1
      {
        assert front[i] in front;
      }
    }
  }

  /** `processRecurrence`, run without interruption. */
  function Pass(db: Db, now: Time): (r: Db)
    ensures r == db.(grants := r.grants)
  {
    ListedIsRecurring(db, |db.subs|);
    ServeAll(db, Listed(db, |db.subs|), now)
  }
}
