/** A pass or a change of plan spelled out step by step, with nothing in between, is the one taken
    as one operation. */
module SoloPass {
  import opened Calendar
  import opened Tables
  import opened Recurrence
  import opened Lifecycle
  import opened CatchUp
  import opened Interleaving

  function ServeSteps(n: nat): seq<Step> {
    if n == 0 then [] else ServeSteps(n - 1) + [Decide(0), Write(0)]
  }

  /** List, then decide and insert entry by entry, and end. */
  function PassSteps(db: Db, now: Time): seq<Step> {
    [Open(0), Load(0, now)] + ServeSteps(|Worklist(db)|) + [Close(0)]
  }

  // ---- The tables after some entries ----

  function ServeTask(listing: Listing, db: Db, task: Task): Db {
    match DecideRow(listing, db.grants, task)
    case Some(row) => Commit(db, row)
    case None => db
  }

  function ServeTasks(listing: Listing, db: Db, tasks: seq<Task>): Db {
    if tasks == [] then db
    else ServeTask(listing, ServeTasks(listing, db, tasks[..|tasks| - 1]), tasks[|tasks| - 1])
  }

  lemma {:induction false} ServeTasksAppend(listing: Listing, db: Db, first: seq<Task>, second: seq<Task>)
    ensures ServeTasks(listing, db, first + second) == ServeTasks(listing, ServeTasks(listing, db, first), second)
  {
    hide ServeTask;
    if second == [] {
      assert first + second == first;
    } else {
      var front := second[..|second| - 1];
      ServeTasksAppend(listing, db, first, front);
      assert (first + second)[..|first + second| - 1] == first + front;
    }
  }

  // ---- Steps against tasks ----

  /** The only pass under way listed `db` and has come to its first `n` entries, inserting as it
      went. */
  predicate Serving(w: World, db: Db, now: Time, n: nat) {
    var all := Worklist(db);
    && n <= |all|
    && w == World(ServeTasks(Listing(db, now, all), db, all[..n]), map[], map[0 := Listing(db, now, all[n..])], map[],
                  map[], map[])
  }

  /** Deciding on the next entry and inserting, as one change of the tables. */
  lemma {:induction false} DecidesThenWrites(w: World, now: Time, db: Db, todo: seq<Task>)
    requires w == World(w.db, map[], map[0 := Listing(db, now, todo)], map[], map[], map[]) && todo != []
    ensures Take(Take(w, Decide(0)), Write(0))
            == World(ServeTask(Listing(db, now, todo), w.db, todo[0]), map[], map[0 := Listing(db, now, todo[1..])],
                     map[], map[], map[])
  {
    hide DecideRow, Commit;
  }

  lemma {:induction false} ServesOne(w: World, db: Db, now: Time, n: nat)
    requires Serving(w, db, now, n) && n < |Worklist(db)|
    ensures Serving(Take(Take(w, Decide(0)), Write(0)), db, now, n + 1)
  {
    var all := Worklist(db);
    hide DecideRow, Worklist, Commit;
    assert all[..n + 1][..n] == all[..n] && all[n..][0] == all[n] && all[n..][1..] == all[n + 1..];
    SameListing(Listing(db, now, all), Listing(db, now, all[n..]), w.db.grants, all[n]);
    DecidesThenWrites(w, now, db, all[n..]);
    hide Take;
  }

  lemma {:induction false} ServesAll(w: World, db: Db, now: Time, n: nat)
    requires Serving(w, db, now, 0) && n <= |Worklist(db)|
    ensures Serving(Interleave(w, ServeSteps(n)), db, now, n)
  {
    hide Take, Serving, Worklist;
    if n > 0 {
      var mid := Interleave(w, ServeSteps(n - 1));
      ServesAll(w, db, now, n - 1);
      ServesOne(mid, db, now, n - 1);
      InterleaveAppend(w, ServeSteps(n - 1), [Decide(0), Write(0)]);
      TwoSteps(mid, Decide(0), Write(0));
    }
  }

  // ---- Tasks against the atomic pass ----

  lemma {:induction false} ServesEntry(listing: Listing, db: Db, sub: Id, k: nat)
    requires Recurring(listing.db, sub) && k < |PlanOf(listing.db, sub).entries|
    requires db == listing.db.(grants := db.grants)
    ensures ServeTask(listing, db, Task(sub, k))
            == match PlanOf(db, sub).recurrence.value {
                 case Valid(d) => Emit(db, sub, PlanOf(db, sub).entries[k], d, listing.now)
                 case Invalid => db
               }
  {
    assert listing.db.(grants := db.grants) == db;
    hide Prepare, Commit;
  }

  lemma {:induction false} ServesEntries(listing: Listing, db: Db, sub: Id, n: nat)
    requires Recurring(listing.db, sub) && n <= |PlanOf(listing.db, sub).entries|
    requires db == listing.db.(grants := db.grants)
    ensures ServeTasks(listing, db, EntryTasks(sub, n))
            == match PlanOf(db, sub).recurrence.value {
                 case Valid(d) => EmitAll(db, sub, PlanOf(db, sub).entries[..n], d, listing.now)
                 case Invalid => db
               }
  {
    hide ServeTask, Emit;
    if n > 0 {
      ServesEntries(listing, db, sub, n - 1);
      assert EntryTasks(sub, n)[..n - 1] == EntryTasks(sub, n - 1);
      ServesEntry(listing, ServeTasks(listing, db, EntryTasks(sub, n - 1)), sub, n - 1);
      assert PlanOf(db, sub).entries[..n][..n - 1] == PlanOf(db, sub).entries[..n - 1];
    }
  }

  lemma {:induction false} ServesListed(listing: Listing, subs: seq<Id>)
    requires forall s: Id :: s in subs ==> Recurring(listing.db, s)
    ensures ServeTasks(listing, listing.db, Tasks(listing.db, subs)) == ServeAll(listing.db, subs, listing.now)
  {
    hide ServeTask, EmitAll, EntryTasks;
    if subs != [] {
      var db, front, last := listing.db, subs[..|subs| - 1], subs[|subs| - 1];
      assert forall s: Id :: s in front ==> s in subs;
      assert last in subs && Recurring(db, last);
      ServesListed(listing, front);
      var mid, n := ServeAll(db, front, listing.now), |PlanOf(db, last).entries|;
      ServeTasksAppend(listing, db, Tasks(db, front), EntryTasks(last, n));
      ServesEntries(listing, mid, last, n);
      assert PlanOf(db, last).entries[..n] == PlanOf(db, last).entries;
    }
  }

  lemma {:induction false} Opens(db: Db, now: Time)
    ensures Serving(Take(Take(Start(db), Open(0)), Load(0, now)), db, now, 0)
  {
    var all := Worklist(db);
    hide Worklist, ServeTask;
    assert all[..0] == [] && all[0..] == all;
    assert db.(ents := db.ents) == db && map[0 := db] - {0} == map[];
  }

  lemma {:induction false} Closes(w: World, db: Db, now: Time)
    requires Serving(w, db, now, |Worklist(db)|)
    ensures Take(w, Close(0)) == Start(Pass(db, now))
  {
    var all := Worklist(db);
    ListedIsRecurring(db, |db.subs|);
    ServesListed(Listing(db, now, all), Listed(db, |db.subs|));
    assert all[..|all|] == all && w.passes - {0} == map[];
    hide ServeTasks, ServeAll;
  }

  /** `processRecurrence` as one operation is the run of its own steps. */
  lemma {:induction false} StepsMakePass(db: Db, now: Time)
    ensures Interleave(Start(db), PassSteps(db, now)) == Start(Pass(db, now))
  {
    hide Take, Worklist, Serving, Pass;
    var n, open := |Worklist(db)|, Take(Take(Start(db), Open(0)), Load(0, now));
    Opens(db, now);
    ServesAll(open, db, now, n);
    Closes(Interleave(open, ServeSteps(n)), db, now);
    TwoSteps(Start(db), Open(0), Load(0, now));
    TwoSteps(Interleave(open, ServeSteps(n)), Close(0), Close(0));
    InterleaveAppend(Start(db), [Open(0), Load(0, now)], ServeSteps(n));
    InterleaveAppend(Start(db), [Open(0), Load(0, now)] + ServeSteps(n), [Close(0)]);
  }

  lemma {:induction false} ReviewsAsChecked(db: Db, sub: Id, plan: Id, at: Time)
    ensures var c := CheckChange(db, sub, plan, at);
            Take(Take(Start(db), Fetch(0, sub)), Review(0, plan, at))
            == Start(db).(changes := if c.Ok? then map[0 := c.value] else map[])
  {
    hide BuildEntries;
    var noRow: map<nat, Fetched>, noChange: map<nat, PlannedChange> := map[], map[];
    assert noRow - {0} == noRow && noChange - {0} == noChange;
    assert forall f: Fetched :: map[0 := f] - {0} == noRow;
  }

  /** So is `ChangeSubscription`: read the row, resolve the plan, run the transaction. */
  lemma {:induction false} StepsMakeChange(db: Db, sub: Id, plan: Id, at: Time)
    ensures Interleave(Start(db), [Fetch(0, sub), Review(0, plan, at), Switch(0)])
            == Start(Lifecycle.Step(db, DoChange(sub, plan, at)))
  {
    var checked := Take(Take(Start(db), Fetch(0, sub)), Review(0, plan, at));
    assert [Fetch(0, sub), Review(0, plan, at), Switch(0)] == [Fetch(0, sub), Review(0, plan, at)] + [Switch(0)];
    InterleaveAppend(Start(db), [Fetch(0, sub), Review(0, plan, at)], [Switch(0)]);
    TwoSteps(Start(db), Fetch(0, sub), Review(0, plan, at));
    TwoSteps(checked, Switch(0), Switch(0));
    ReviewsAsChecked(db, sub, plan, at);
    hide CheckChange, CommitChange, Interleave;
    assert checked.changes - {0} == map[];
  }
}
