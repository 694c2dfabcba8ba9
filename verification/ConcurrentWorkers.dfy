/** The cycles emitted for one entry by any number of interleaved passes continue its history
    without a gap. */
module ConcurrentWorkers {
  import opened Options
  import opened Calendar
  import opened Tables
  import opened TableInvariants
  import opened Recurrence
  import opened CatchUp
  import opened Interleaving

  /** No change of the subscription to another plan begins; passes and other changes are spelled
      out. */
  predicate KeepsPlan(s: Step, sub: Id) {
    Spelled(s) && (s.Fetch? ==> s.sub != sub)
  }

  predicate AllKeepPlan(steps: seq<Step>, sub: Id) {
    forall i :: 0 <= i < |steps| ==> KeepsPlan(steps[i], sub)
  }

  /** No change of the subscription is in flight. */
  predicate Steady(w: World, sub: Id) {
    && sub < |w.db.subs|
    && (forall handler :: handler in w.fetched ==> w.fetched[handler].sub != sub)
    && (forall handler :: handler in w.changes ==> w.changes[handler].sub != sub)
  }

  /** The subscription's plan renews every `d`. */
  predicate Renews(db: Db, sub: Id, d: Duration) {
    && sub < |db.subs| && db.subs[sub].plan < |db.plans|
    && db.plans[db.subs[sub].plan].recurrence == Some(Valid(d))
  }

  /** A pass that has seen the subscription has seen it as it is: renewing every `d`, begun at the
      same time. */
  predicate SeenAlike(seen: Db, db: Db, sub: Id, d: Duration)
    requires sub < |db.subs|
  {
    Recurring(seen, sub) ==> Renews(seen, sub, d) && seen.subs[sub].startsAt == db.subs[sub].startsAt
  }

  /** So has every pass that has still to come to it, and no change of it is in flight. */
  predicate Renewing(w: World, sub: Id, d: Duration) {
    && Renews(w.db, sub, d) && Steady(w, sub)
    && (forall worker :: worker in w.seen ==> SeenAlike(w.seen[worker], w.db, sub, d))
    && (forall worker :: worker in w.passes ==>
          Past(w.passes[worker], sub) || SeenAlike(w.passes[worker].db, w.db, sub, d))
  }

  lemma {:induction false} LeavesItself(db: Db, sub: Id)
    requires sub < |db.subs|
    ensures Leaves(db, db, sub)
  {
  }

  /** The step leaves the subscription as `Leaves` says, but for the grants a worker inserts. */
  lemma {:induction false} KeepsRow(w: World, s: Step, sub: Id)
    requires Steady(w, sub) && KeepsPlan(s, sub)
    ensures s.Write? || Leaves(w.db, Take(w, s).db, sub)
    ensures s.Write? ==> Take(w, s).db == w.db.(grants := Take(w, s).db.grants)
  {
    TakeDb(w, s);
    LeavesItself(w.db, sub);
    hide Take, Leaves, Lifecycle.Step, CommitChange, GrantClash;
    match s
    case Operate(op) => OperationLeaves(w.db, op, sub);
    case Switch(handler) =>
      if handler in w.changes {
        ChangeLeaves(w.db, w.changes[handler], sub);
      }
    case _ =>
  }

  lemma {:induction false} NoneBegins(w: World, s: Step, sub: Id)
    requires Steady(w, sub) && KeepsPlan(s, sub)
    ensures forall handler :: handler in Take(w, s).fetched ==> Take(w, s).fetched[handler].sub != sub
    ensures forall handler :: handler in Take(w, s).changes ==> Take(w, s).changes[handler].sub != sub
  {
    hide DecideRow, Worklist, Lifecycle.Step, CommitChange, BuildEntries, GrantClash;
  }

  lemma {:induction false} TakeKeepsSteady(w: World, s: Step, sub: Id)
    requires Steady(w, sub) && KeepsPlan(s, sub)
    ensures Steady(Take(w, s), sub)
  {
    KeepsRow(w, s, sub);
    NoneBegins(w, s, sub);
    hide Take;
  }

  lemma {:induction false} StaysSteady(w: World, steps: seq<Step>, sub: Id)
    requires Steady(w, sub) && AllKeepPlan(steps, sub)
    ensures Steady(Interleave(w, steps), sub)
  {
    hide Steady, Take;
    if steps != [] {
      StaysSteady(w, steps[..|steps| - 1], sub);
      TakeKeepsSteady(Interleave(w, steps[..|steps| - 1]), steps[|steps| - 1], sub);
    }
  }

  lemma {:induction false} SeesAlike(w: World, s: Step, sub: Id, d: Duration)
    requires Renewing(w, sub, d)
    ensures forall worker :: worker in Take(w, s).seen ==> SeenAlike(Take(w, s).seen[worker], w.db, sub, d)
    ensures forall worker :: worker in Take(w, s).passes ==>
              Past(Take(w, s).passes[worker], sub) || SeenAlike(Take(w, s).passes[worker].db, w.db, sub, d)
  {
    hide DecideRow, Worklist, Lifecycle.Step, CommitChange, PlanChange, GrantClash;
  }

  lemma {:induction false} TakeKeepsRenewing(w: World, s: Step, sub: Id, d: Duration)
    requires Renewing(w, sub, d) && KeepsPlan(s, sub)
    ensures Renewing(Take(w, s), sub, d)
  {
    KeepsRow(w, s, sub);
    SeesAlike(w, s, sub, d);
    TakeKeepsSteady(w, s, sub);
    hide Take, Past, Steady;
  }

  lemma {:induction false} StaysRenewing(w: World, steps: seq<Step>, sub: Id, d: Duration)
    requires Renewing(w, sub, d) && AllKeepPlan(steps, sub)
    ensures Renewing(Interleave(w, steps), sub, d)
  {
    hide Renewing, Take;
    if steps != [] {
      StaysRenewing(w, steps[..|steps| - 1], sub, d);
      TakeKeepsRenewing(Interleave(w, steps[..|steps| - 1]), steps[|steps| - 1], sub, d);
    }
  }

  /** The step comes to an entry and decides on the row. */
  predicate Decides(w: World, s: Step, row: GrantRow) {
    && s.Decide? && s.worker in w.passes && w.passes[s.worker].todo != []
    && DecideRow(w.passes[s.worker], w.db.grants, w.passes[s.worker].todo[0]) == Some(row)
  }

  /** A row held after a step was held before, unless the step decided it. */
  lemma {:induction false} HeldOrDecided(w: World, s: Step, worker: nat)
    requires worker in Take(w, s).pending
    ensures Holds(w, worker, Take(w, s).pending[worker])
            || (s.Decide? && s.worker == worker && Decides(w, s, Take(w, s).pending[worker]))
  {
    hide DecideRow, Worklist, PlanChange, CommitChange, Lifecycle.Step;
  }

  /** A row is decided at one interval after what the entry's next cycle is dated off now; unless
      the interval is empty, at a time not emitted yet. */
  lemma {:induction false} DecidesNext(w: World, s: Step, row: GrantRow, sub: Id, ent: Id, d: Duration)
    requires Renewing(w, sub, d) && Decides(w, s, row) && EmittedFor(row, sub, ent)
    ensures row.effectiveAt == WorkerShifter(d)(BaseTime(w.db, sub, ent))
    ensures d.NonZero() ==> row.effectiveAt !in Times(w.db.grants, sub, ent)
  {
    assert w.passes[s.worker].todo[0].sub == sub ==> SeenAlike(w.passes[s.worker].db, w.db, sub, d);
    if d.NonZero() {
      DueIsFree(w.db, sub, ent, d, 0);
    }
    hide Times, WorkerShifter, Greatest;
  }

  /** The step inserts a held row of the entry, and the insert is accepted. */
  predicate Inserts(w: World, s: Step, sub: Id, ent: Id) {
    && s.Write? && s.worker in w.pending
    && EmittedFor(w.pending[s.worker], sub, ent) && InsertGrant(w.db, w.pending[s.worker]).Ok?
  }

  /** A step emits for the entry only by inserting a held row of it. */
  lemma {:induction false} TakeTimes(w: World, s: Step, sub: Id, ent: Id)
    requires Steady(w, sub) && KeepsPlan(s, sub)
    ensures Times(Take(w, s).db.grants, sub, ent)
            == Times(w.db.grants, sub, ent)
               + if Inserts(w, s, sub, ent) then [w.pending[s.worker].effectiveAt] else []
  {
    KeepsRow(w, s, sub);
    hide Times, Leaves, GrantClash, DecideRow, Lifecycle.Step, CommitChange, PlanChange, Worklist;
    if s.Write? {
      if s.worker in w.pending && InsertGrant(w.db, w.pending[s.worker]).Ok? {
        TimesAppend(w.db.grants, w.pending[s.worker], sub, ent);
      }
    } else {
      LeavesTimes(w.db, Take(w, s).db, sub, ent);
    }
  }

  // ---- Gapless emission ----

  predicate IsCycle(step: Stepper, base: Time, n: nat, t: Time) {
    exists i: nat :: 0 < i <= n && t == Iterate(step, base, i)
  }

  /** The history, continued by the first n cycles after it and nothing else, in some order. */
  predicate Continues(times: seq<Time>, history: seq<Time>, step: Stepper, base: Time, n: nat) {
    && history <= times
    && (forall t :: t in times[|history|..] ==> IsCycle(step, base, n, t))
    && (forall i: nat :: 0 < i <= n ==> Iterate(step, base, i) in times[|history|..])
  }

  /** A decided row dates itself at a cycle that exists or is the next one. */
  predicate OnChain(row: GrantRow, sub: Id, ent: Id, step: Stepper, base: Time, n: nat) {
    EmittedFor(row, sub, ent) ==> IsCycle(step, base, n + 1, row.effectiveAt)
  }

  /** No time has two live grants of the entry. */
  predicate OneLiveEach(grants: seq<GrantRow>, sub: Id, ent: Id) {
    forall i, j :: 0 <= i < j < |grants| && EmittedFor(grants[i], sub, ent) && EmittedFor(grants[j], sub, ent) ==>
      !SameEmission(grants[i], grants[j])
  }

  /** What the first cycle after the history is dated off. */
  function BaseOf(history: seq<Time>, startsAt: Time): Time {
    if history == [] then startsAt else Greatest(history)
  }

  /** What every interleaving keeps. */
  ghost predicate Sane(w: World, sub: Id, ent: Id, d: Duration, history: seq<Time>, n: nat) {
    && Renewing(w, sub, d)
    && (var base := BaseOf(history, w.db.subs[sub].startsAt);
        && Continues(Times(w.db.grants, sub, ent), history, WorkerShifter(d), base, n)
        && (forall k :: k in w.pending ==> OnChain(w.pending[k], sub, ent, WorkerShifter(d), base, n)))
    && OneLiveEach(w.db.grants, sub, ent)
  }

  lemma {:induction false} IterateNeverFalls(step: Stepper, base: Time, i: nat, j: nat)
    requires NeverRetreats(step) && i <= j
    ensures Iterate(step, base, i) <= Iterate(step, base, j)
    decreases j
  {
    if i < j {
      IterateNeverFalls(step, base, i, j - 1);
    }
  }

  lemma {:induction false} NoCycleYet(step: Stepper, base: Time, t: Time)
    ensures !IsCycle(step, base, 0, t)
  {
  }

  /** The next cycle is dated off cycle n. */
  lemma {:induction false} BaseIsLast(times: seq<Time>, history: seq<Time>, startsAt: Time, step: Stepper, n: nat)
    requires NeverRetreats(step) && Continues(times, history, step, BaseOf(history, startsAt), n)
    ensures BaseOf(times, startsAt) == Iterate(step, BaseOf(history, startsAt), n)
  {
    var base := BaseOf(history, startsAt);
    var last := Iterate(step, base, n);
    var more := times[|history|..];
    assert times == history + more;
    IterateNeverFalls(step, base, 0, n);
    forall t | t in more
      ensures t <= last
    {
      assert IsCycle(step, base, n, t);
      var i: nat :| 0 < i <= n && t == Iterate(step, base, i);
      IterateNeverFalls(step, base, i, n);
    }
    if n > 0 {
      assert last in times;
    } else {
      hide IsCycle;
      if more != [] {
        NoCycleYet(step, base, more[0]);
        assert false;
      }
      assert times == history;
    }
  }

  lemma {:induction false} TakeKeepsOneLive(w: World, s: Step, sub: Id, ent: Id)
    requires Steady(w, sub) && KeepsPlan(s, sub) && OneLiveEach(w.db.grants, sub, ent)
    ensures OneLiveEach(Take(w, s).db.grants, sub, ent)
  {
    KeepsRow(w, s, sub);
    var after := Take(w, s).db;
    if !s.Write? {
      hide Take, KeepsPlan;
      forall i, j | 0 <= i < j < |after.grants|
                    && EmittedFor(after.grants[i], sub, ent) && EmittedFor(after.grants[j], sub, ent)
        ensures !SameEmission(after.grants[i], after.grants[j])
      {
        assert GrantKept(w.db.grants[i], after.grants[i]) && GrantKept(w.db.grants[j], after.grants[j]);
        assert !SameEmission(w.db.grants[i], w.db.grants[j]);
      }
    }
  }

  /** A cycle that exists, or the next one, extends the chain by at most itself. */
  lemma {:induction false} ChainGrows(times: seq<Time>, t: Time, history: seq<Time>, step: Stepper, base: Time, n: nat)
    returns (m: nat)
    requires Continues(times, history, step, base, n) && IsCycle(step, base, n + 1, t)
    ensures n <= m && Continues(times + [t], history, step, base, m)
  {
    var i: nat :| 0 < i <= n + 1 && t == Iterate(step, base, i);
    m := if i == n + 1 then n + 1 else n;
    var more := times[|history|..];
    assert (times + [t])[|history|..] == more + [t];
    hide Iterate;
    forall u | u in more + [t]
      ensures IsCycle(step, base, m, u)
    {
      if u in more {
        var j: nat :| 0 < j <= n && u == Iterate(step, base, j);
        assert j <= m;
      }
    }
  }

  lemma {:induction false} TakeKeepsChain(w: World, s: Step, sub: Id, ent: Id, d: Duration, history: seq<Time>, n: nat)
    returns (m: nat)
    requires Sane(w, sub, ent, d, history, n) && KeepsPlan(s, sub)
    ensures n <= m && Continues(Times(Take(w, s).db.grants, sub, ent), history, WorkerShifter(d),
                                BaseOf(history, w.db.subs[sub].startsAt), m)
  {
    TakeTimes(w, s, sub, ent);
    hide Times, WorkerShifter, Take, Renewing, Continues, IsCycle, BaseOf;
    m := n;
    assert Times(w.db.grants, sub, ent) + [] == Times(w.db.grants, sub, ent);
    if Inserts(w, s, sub, ent) {
      assert OnChain(w.pending[s.worker], sub, ent, WorkerShifter(d), BaseOf(history, w.db.subs[sub].startsAt), n);
      m := ChainGrows(Times(w.db.grants, sub, ent), w.pending[s.worker].effectiveAt, history, WorkerShifter(d),
                      BaseOf(history, w.db.subs[sub].startsAt), n);
    }
  }

  lemma {:induction false} NextIsCycle(step: Stepper, base: Time, n: nat)
    ensures IsCycle(step, base, n + 1, step(Iterate(step, base, n)))
  {
    var i: nat := n + 1;
    assert step(Iterate(step, base, n)) == Iterate(step, base, i);
  }

  lemma {:induction false} TakeKeepsPending(w: World, s: Step, sub: Id, ent: Id, d: Duration, history: seq<Time>,
                                            n: nat, worker: nat)
    requires Sane(w, sub, ent, d, history, n) && KeepsPlan(s, sub) && worker in Take(w, s).pending
    ensures OnChain(Take(w, s).pending[worker], sub, ent, WorkerShifter(d),
                    BaseOf(history, w.db.subs[sub].startsAt), n)
  {
    var row, startsAt := Take(w, s).pending[worker], w.db.subs[sub].startsAt;
    HeldOrDecided(w, s, worker);
    hide Times, Decides, WorkerShifter, Take, Renewing, Continues, Greatest, IsCycle, OneLiveEach;
    if EmittedFor(row, sub, ent) && !Holds(w, worker, row) {
      WorkerNeverRetreats(d);
      BaseIsLast(Times(w.db.grants, sub, ent), history, startsAt, WorkerShifter(d), n);
      DecidesNext(w, s, row, sub, ent, d);
      NextIsCycle(WorkerShifter(d), BaseOf(history, startsAt), n);
    }
  }

  lemma {:induction false} OnChainLater(row: GrantRow, sub: Id, ent: Id, step: Stepper, base: Time, n: nat, m: nat)
    requires n <= m && OnChain(row, sub, ent, step, base, n)
    ensures OnChain(row, sub, ent, step, base, m)
  {
  }

  lemma {:induction false} SameStart(w: World, s: Step, sub: Id)
    requires Steady(w, sub) && KeepsPlan(s, sub)
    ensures sub < |Take(w, s).db.subs| && Take(w, s).db.subs[sub].startsAt == w.db.subs[sub].startsAt
  {
    KeepsRow(w, s, sub);
    hide Take;
  }

  lemma {:induction false} StepKeepsSane(w: World, s: Step, sub: Id, ent: Id, d: Duration, history: seq<Time>, n: nat)
    returns (m: nat)
    requires Sane(w, sub, ent, d, history, n) && KeepsPlan(s, sub)
    ensures Sane(Take(w, s), sub, ent, d, history, m)
  {
    m := TakeKeepsChain(w, s, sub, ent, d, history, n);
    TakeKeepsRenewing(w, s, sub, d);
    TakeKeepsOneLive(w, s, sub, ent);
    SameStart(w, s, sub);
    hide Take, Times, Continues, OneLiveEach, Renewing, OnChain, BaseOf;
    var base := BaseOf(history, w.db.subs[sub].startsAt);
    forall worker | worker in Take(w, s).pending
      ensures OnChain(Take(w, s).pending[worker], sub, ent, WorkerShifter(d), base, m)
    {
      TakeKeepsPending(w, s, sub, ent, d, history, n, worker);
      OnChainLater(Take(w, s).pending[worker], sub, ent, WorkerShifter(d), base, n, m);
    }
  }

  /** Concurrent passes: however any number of them interleave with each other, with voids,
      cancels and every other operation that leaves the subscription on its plan, the times
      emitted for an entry continue its history by a gapless chain of repeated shifts, no time
      has two live grants, and every row still held lies on the chain or at its next cycle. */
  lemma {:induction false} WorkersStayGapless(w: World, steps: seq<Step>, sub: Id, ent: Id, d: Duration,
                                              history: seq<Time>, n: nat)
    returns (m: nat)
    requires Sane(w, sub, ent, d, history, n) && AllKeepPlan(steps, sub)
    ensures Sane(Interleave(w, steps), sub, ent, d, history, m)
  {
    m := n;
    if steps != [] {
      hide Sane, Take;
      m := WorkersStayGapless(w, steps[..|steps| - 1], sub, ent, d, history, n);
      m := StepKeepsSane(Interleave(w, steps[..|steps| - 1]), steps[|steps| - 1], sub, ent, d, history, m);
    }
  }

  lemma {:induction false} SameStarts(w: World, steps: seq<Step>, sub: Id)
    requires Steady(w, sub) && AllKeepPlan(steps, sub)
    ensures var later := Interleave(w, steps).db;
            sub < |later.subs| && later.subs[sub].startsAt == w.db.subs[sub].startsAt
  {
    hide Take;
    if steps != [] {
      hide Steady;
      var front := steps[..|steps| - 1];
      SameStarts(w, front, sub);
      StaysSteady(w, front, sub);
      SameStart(Interleave(w, front), steps[|steps| - 1], sub);
    }
  }

  /** The same from the tables alone, whatever the entry has been given before. */
  lemma {:induction false} GaplessFromAnyHistory(db: Db, steps: seq<Step>, sub: Id, ent: Id, d: Duration)
    returns (m: nat)
    requires UniqueEmissions(db.grants) && Renews(db, sub, d) && AllKeepPlan(steps, sub)
    ensures var later := Interleave(Start(db), steps).db;
            && Continues(Times(later.grants, sub, ent), Times(db.grants, sub, ent), WorkerShifter(d),
                         BaseTime(db, sub, ent), m)
            && OneLiveEach(later.grants, sub, ent)
  {
    var history := Times(db.grants, sub, ent);
    assert history[|history|..] == [];
    m := WorkersStayGapless(Start(db), steps, sub, ent, d, history, 0);
    StaysRenewing(Start(db), steps, sub, d);
    SameStarts(Start(db), steps, sub);
  }
}
