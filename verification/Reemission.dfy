/** Exactly when interleaved passes emit a cycle twice: the emission index does not see voided
    rows, so a grant voided under a worker that still holds its cycle lets the cycle in again; and
    an empty interval dates every cycle at the same time. */
module Reemission {
  import opened Options
  import opened Calendar
  import opened Sequences
  import opened Tables
  import opened TableInvariants
  import opened Recurrence
  import opened Lifecycle
  import opened CatchUp
  import opened Interleaving
  import opened ConcurrentWorkers

  // ---- By inserts ----

  /** An insert is accepted for a time the entry has been given before. */
  predicate Reinserts(w: World, s: Step, sub: Id, ent: Id) {
    Inserts(w, s, sub, ent) && w.pending[s.worker].effectiveAt in Times(w.db.grants, sub, ent)
  }

  /** Each step of a run adds the time it inserts, if any. */
  lemma {:induction false} TimesAt(w: World, steps: seq<Step>, sub: Id, ent: Id, n: nat)
    requires Steady(w, sub) && AllKeepPlan(steps, sub) && n < |steps|
    ensures At(w, steps, n + 1) == Take(At(w, steps, n), steps[n])
    ensures Times(At(w, steps, n + 1).db.grants, sub, ent)
            == Times(At(w, steps, n).db.grants, sub, ent)
               + if Inserts(At(w, steps, n), steps[n], sub, ent)
                 then [At(w, steps, n).pending[steps[n].worker].effectiveAt] else []
  {
    StaysSteady(w, steps[..n], sub);
    NextStep(w, steps, n);
    TakeTimes(At(w, steps, n), steps[n], sub, ent);
  }

  lemma {:induction false} TimesGrow(w: World, steps: seq<Step>, sub: Id, ent: Id, n: nat, m: nat)
    requires Steady(w, sub) && AllKeepPlan(steps, sub) && n <= m <= |steps|
    ensures Times(At(w, steps, n).db.grants, sub, ent) <= Times(At(w, steps, m).db.grants, sub, ent)
    decreases m - n
  {
    hide Times, At, Inserts;
    if n < m {
      TimesGrow(w, steps, sub, ent, n, m - 1);
      TimesAt(w, steps, sub, ent, m - 1);
    }
  }

  lemma {:induction false} NoRepeatsPush(times: seq<Time>, t: Time)
    requires NoRepeats(times) && t !in times
    ensures NoRepeats(times + [t])
  {
  }

  lemma {:induction false} NoRepeatsSoFar(w: World, steps: seq<Step>, sub: Id, ent: Id, n: nat)
    requires Steady(w, sub) && AllKeepPlan(steps, sub) && n <= |steps|
    requires NoRepeats(Times(w.db.grants, sub, ent))
    requires forall i :: 0 <= i < |steps| ==> !Reinserts(At(w, steps, i), steps[i], sub, ent)
    ensures NoRepeats(Times(At(w, steps, n).db.grants, sub, ent))
  {
    if n == 0 {
      assert steps[..0] == [];
    } else {
      hide Times, At, Inserts, NoRepeats, Steady;
      NoRepeatsSoFar(w, steps, sub, ent, n - 1);
      TimesAt(w, steps, sub, ent, n - 1);
      var before, s := At(w, steps, n - 1), steps[n - 1];
      assert !Reinserts(before, s, sub, ent);
      if Inserts(before, s, sub, ent) {
        NoRepeatsPush(Times(before.db.grants, sub, ent), before.pending[s.worker].effectiveAt);
      } else {
        assert Times(before.db.grants, sub, ent) + [] == Times(before.db.grants, sub, ent);
      }
    }
  }

  lemma {:induction false} ReinsertRepeats(w: World, steps: seq<Step>, sub: Id, ent: Id, i: nat)
    requires Steady(w, sub) && AllKeepPlan(steps, sub) && i < |steps|
    requires Reinserts(At(w, steps, i), steps[i], sub, ent)
    ensures !NoRepeats(Times(Interleave(w, steps).db.grants, sub, ent))
  {
    assert steps[..|steps|] == steps;
    TimesAt(w, steps, sub, ent, i);
    TimesGrow(w, steps, sub, ent, i + 1, |steps|);
    var times := Times(At(w, steps, i).db.grants, sub, ent);
    var t := At(w, steps, i).pending[steps[i].worker].effectiveAt;
    var all := Times(Interleave(w, steps).db.grants, sub, ent);
    hide Times, Inserts, Interleave;
    var j :| 0 <= j < |times| && times[j] == t;
    assert all[j] == t && all[|times|] == t;
  }

  /** Each cycle is emitted once exactly when no worker's insert is accepted for a time the entry
      has been given before, which is the branch the partial index lets through. */
  lemma {:induction false} OnceIffNoReinsert(w: World, steps: seq<Step>, sub: Id, ent: Id)
    requires Steady(w, sub) && AllKeepPlan(steps, sub) && NoRepeats(Times(w.db.grants, sub, ent))
    ensures NoRepeats(Times(Interleave(w, steps).db.grants, sub, ent))
            <==> forall i :: 0 <= i < |steps| ==> !Reinserts(At(w, steps, i), steps[i], sub, ent)
  {
    assert steps[..|steps|] == steps;
    if forall i :: 0 <= i < |steps| ==> !Reinserts(At(w, steps, i), steps[i], sub, ent) {
      NoRepeatsSoFar(w, steps, sub, ent, |steps|);
    } else {
      var i :| 0 <= i < |steps| && Reinserts(At(w, steps, i), steps[i], sub, ent);
      ReinsertRepeats(w, steps, sub, ent, i);
    }
  }

  // ---- By voids ----

  /** The step voids the live grant of the entry's cycle at `t`. */
  predicate VoidsCycle(w: World, s: Step, sub: Id, ent: Id, t: Time) {
    HasLive(w.db.grants, sub, ent, t) && !HasLive(Take(w, s).db.grants, sub, ent, t)
  }

  /** From before step `v` to before step `n` the worker holds the row. */
  predicate HeldFrom(w: World, steps: seq<Step>, worker: nat, row: GrantRow, v: nat, n: nat)
    requires n <= |steps|
  {
    forall m: nat :: v <= m <= n ==> Holds(At(w, steps, m), worker, row)
  }

  /** By step `n`, the cycle of the row was voided while the worker held it. */
  ghost predicate VoidedUnder(w: World, steps: seq<Step>, worker: nat, row: GrantRow, sub: Id, ent: Id, n: nat)
    requires n <= |steps|
  {
    exists v: nat :: v < n && VoidsCycle(At(w, steps, v), steps[v], sub, ent, row.effectiveAt)
                     && HeldFrom(w, steps, worker, row, v, n)
  }

  /** Every held row of a cycle the entry already has faces a live grant of it, or has seen that
      grant voided. */
  ghost predicate Guarded(w: World, steps: seq<Step>, sub: Id, ent: Id, n: nat)
    requires n <= |steps|
  {
    var now := At(w, steps, n);
    forall worker :: worker in now.pending && EmittedFor(now.pending[worker], sub, ent)
                     && now.pending[worker].effectiveAt in Times(now.db.grants, sub, ent) ==>
      HasLive(now.db.grants, sub, ent, now.pending[worker].effectiveAt)
      || VoidedUnder(w, steps, worker, now.pending[worker], sub, ent, n)
  }

  lemma {:induction false} InsertMakesLive(w: World, s: Step, sub: Id, ent: Id)
    requires Inserts(w, s, sub, ent) && PendingLive(w)
    ensures HasLive(Take(w, s).db.grants, sub, ent, w.pending[s.worker].effectiveAt)
  {
    assert Take(w, s).db.grants[|w.db.grants|] == w.pending[s.worker];
    hide GrantClash;
  }

  lemma {:induction false} KeepsHolding(w: World, steps: seq<Step>, worker: nat, row: GrantRow, sub: Id, ent: Id,
                                        n: nat)
    requires n < |steps| && Holds(At(w, steps, n + 1), worker, row)
    requires VoidedUnder(w, steps, worker, row, sub, ent, n)
    ensures VoidedUnder(w, steps, worker, row, sub, ent, n + 1)
  {
    hide At, Holds, VoidsCycle;
    var v: nat :| v < n && VoidsCycle(At(w, steps, v), steps[v], sub, ent, row.effectiveAt)
                  && HeldFrom(w, steps, worker, row, v, n);
    assert HeldFrom(w, steps, worker, row, v, n + 1);
  }

  lemma {:induction false} JustVoided(w: World, steps: seq<Step>, worker: nat, row: GrantRow, sub: Id, ent: Id, n: nat)
    requires n < |steps| && Holds(At(w, steps, n), worker, row) && Holds(At(w, steps, n + 1), worker, row)
    requires VoidsCycle(At(w, steps, n), steps[n], sub, ent, row.effectiveAt)
    ensures VoidedUnder(w, steps, worker, row, sub, ent, n + 1)
  {
    hide At, Holds, VoidsCycle;
    assert HeldFrom(w, steps, worker, row, n, n + 1);
  }

  /** One worker's row, over one step. */
  lemma {:induction false} GuardedNext(w: World, steps: seq<Step>, sub: Id, ent: Id, d: Duration, n: nat, worker: nat)
    requires Steady(w, sub) && AllKeepPlan(steps, sub) && n < |steps| && Guarded(w, steps, sub, ent, n)
    requires Renewing(At(w, steps, n), sub, d) && d.NonZero() && PendingLive(At(w, steps, n))
    requires var next := At(w, steps, n + 1);
             worker in next.pending && EmittedFor(next.pending[worker], sub, ent)
             && next.pending[worker].effectiveAt in Times(next.db.grants, sub, ent)
             && !HasLive(next.db.grants, sub, ent, next.pending[worker].effectiveAt)
    ensures VoidedUnder(w, steps, worker, At(w, steps, n + 1).pending[worker], sub, ent, n + 1)
  {
    var now, s := At(w, steps, n), steps[n];
    var next := At(w, steps, n + 1);
    var row := next.pending[worker];
    TimesAt(w, steps, sub, ent, n);
    HeldOrDecided(now, s, worker);
    hide At, Times, Take, Interleave, Decides, Renewing, PendingLive, HasLive, EmittedFor;
    if Inserts(now, s, sub, ent) {
      InsertMakesLive(now, s, sub, ent);
    }
    assert row.effectiveAt in Times(now.db.grants, sub, ent);
    if !Holds(now, worker, row) {
      DecidesNext(now, s, row, sub, ent, d);
    } else if HasLive(now.db.grants, sub, ent, row.effectiveAt) {
      JustVoided(w, steps, worker, row, sub, ent, n);
    } else {
      KeepsHolding(w, steps, worker, row, sub, ent, n);
    }
  }

  lemma {:induction false} GuardedStep(w: World, steps: seq<Step>, sub: Id, ent: Id, d: Duration, n: nat)
    requires Steady(w, sub) && AllKeepPlan(steps, sub) && n < |steps| && Guarded(w, steps, sub, ent, n)
    requires Renewing(At(w, steps, n), sub, d) && d.NonZero() && PendingLive(At(w, steps, n))
    ensures Guarded(w, steps, sub, ent, n + 1)
  {
    hide At, Times, HasLive, VoidedUnder, Interleave, Renewing, PendingLive, EmittedFor, Take;
    var next := At(w, steps, n + 1);
    forall worker | worker in next.pending && EmittedFor(next.pending[worker], sub, ent)
                    && next.pending[worker].effectiveAt in Times(next.db.grants, sub, ent)
                    && !HasLive(next.db.grants, sub, ent, next.pending[worker].effectiveAt)
      ensures VoidedUnder(w, steps, worker, next.pending[worker], sub, ent, n + 1)
    {
      GuardedNext(w, steps, sub, ent, d, n, worker);
    }
  }

  lemma {:induction false} RenewingAt(w: World, steps: seq<Step>, sub: Id, d: Duration, n: nat)
    requires Renewing(w, sub, d) && AllKeepPlan(steps, sub) && n <= |steps|
    ensures Renewing(At(w, steps, n), sub, d)
  {
    StaysRenewing(w, steps[..n], sub, d);
  }

  lemma {:induction false} StaysGuarded(w: World, steps: seq<Step>, sub: Id, ent: Id, d: Duration, n: nat)
    requires Renewing(w, sub, d) && d.NonZero() && w.pending == map[] && AllKeepPlan(steps, sub) && n <= |steps|
    ensures Guarded(w, steps, sub, ent, n)
  {
    if n == 0 {
      assert steps[..0] == [];
    } else {
      assert Steady(w, sub) && PendingLive(w);
      hide *;
      StaysGuarded(w, steps, sub, ent, d, n - 1);
      RenewingAt(w, steps, sub, d, n - 1);
      PendingLiveAt(w, steps, n - 1);
      GuardedStep(w, steps, sub, ent, d, n - 1);
    }
  }

  /** An accepted insert of a row whose cycle was voided while the worker held it. */
  ghost predicate WritesVoided(w: World, steps: seq<Step>, sub: Id, ent: Id, i: nat)
    requires i < |steps|
  {
    Inserts(At(w, steps, i), steps[i], sub, ent)
    && VoidedUnder(w, steps, steps[i].worker, At(w, steps, i).pending[steps[i].worker], sub, ent, i)
  }

  lemma {:induction false} VoidedWasEmitted(w: World, steps: seq<Step>, worker: nat, row: GrantRow, sub: Id,
                                            ent: Id, i: nat)
    requires Steady(w, sub) && AllKeepPlan(steps, sub) && i <= |steps|
    requires VoidedUnder(w, steps, worker, row, sub, ent, i)
    ensures row.effectiveAt in Times(At(w, steps, i).db.grants, sub, ent)
  {
    var v: nat :| v < i && VoidsCycle(At(w, steps, v), steps[v], sub, ent, row.effectiveAt)
                  && HeldFrom(w, steps, worker, row, v, i);
    LiveInTimes(At(w, steps, v).db.grants, sub, ent, row.effectiveAt);
    TimesGrow(w, steps, sub, ent, v, i);
  }

  lemma {:induction false} ReinsertsIffVoided(w: World, steps: seq<Step>, sub: Id, ent: Id, d: Duration, i: nat)
    requires Renewing(w, sub, d) && d.NonZero() && w.pending == map[] && AllKeepPlan(steps, sub) && i < |steps|
    ensures Reinserts(At(w, steps, i), steps[i], sub, ent) <==> WritesVoided(w, steps, sub, ent, i)
  {
    StaysGuarded(w, steps, sub, ent, d, i);
    PendingLiveAt(w, steps, i);
    hide Times, HasLive, VoidedUnder, Interleave, InsertGrant;
    if Inserts(At(w, steps, i), steps[i], sub, ent) {
      var row := At(w, steps, i).pending[steps[i].worker];
      ClashIffLive(At(w, steps, i).db.grants, row, sub, ent);
      if VoidedUnder(w, steps, steps[i].worker, row, sub, ent, i) {
        VoidedWasEmitted(w, steps, steps[i].worker, row, sub, ent, i);
      }
    }
  }

  /** With an interval that is not empty, each cycle is emitted once, unless and only unless a
      grant of the entry is voided while another worker holds a decided row of the same cycle and
      later inserts it. */
  lemma {:induction false} OnceIffNoVoidUnderWorker(db: Db, steps: seq<Step>, sub: Id, ent: Id, d: Duration)
    requires Renews(db, sub, d) && d.NonZero() && NoRepeats(Times(db.grants, sub, ent)) && AllKeepPlan(steps, sub)
    ensures NoRepeats(Times(Interleave(Start(db), steps).db.grants, sub, ent))
            <==> forall i :: 0 <= i < |steps| ==> !WritesVoided(Start(db), steps, sub, ent, i)
  {
    OnceIffNoReinsert(Start(db), steps, sub, ent);
    forall i | 0 <= i < |steps|
      ensures Reinserts(At(Start(db), steps, i), steps[i], sub, ent) <==> WritesVoided(Start(db), steps, sub, ent, i)
    {
      ReinsertsIffVoided(Start(db), steps, sub, ent, d, i);
    }
    hide Times, Interleave, Reinserts, WritesVoided, At;
  }

  /** So while no live grant of the entry is voided, every interleaving continues the history by
      every cycle of the chain exactly once, whatever happens to other grants. */
  lemma {:induction false} EachCycleOnce(db: Db, steps: seq<Step>, sub: Id, ent: Id, d: Duration)
    returns (m: nat)
    requires UniqueEmissions(db.grants) && Renews(db, sub, d) && d.NonZero() && NoRepeats(Times(db.grants, sub, ent))
    requires AllKeepPlan(steps, sub)
    requires forall v, t: Time :: 0 <= v < |steps| ==> !VoidsCycle(At(Start(db), steps, v), steps[v], sub, ent, t)
    ensures var times := Times(Interleave(Start(db), steps).db.grants, sub, ent);
            && Continues(times, Times(db.grants, sub, ent), WorkerShifter(d), BaseTime(db, sub, ent), m)
            && NoRepeats(times)
  {
    m := GaplessFromAnyHistory(db, steps, sub, ent, d);
    hide Times, Interleave, VoidsCycle, At, HeldFrom, Continues, Inserts;
    OnceIffNoVoidUnderWorker(db, steps, sub, ent, d);
  }

  // ---- An empty interval ----

  lemma {:induction false} EmptyStaysPut(d: Duration, base: Time, i: nat)
    requires !d.NonZero()
    ensures Iterate(WorkerShifter(d), base, i) == base
  {
    hide WorkerShift;
    if i > 0 {
      EmptyStaysPut(d, base, i - 1);
      WorkerShiftDirection(base, d);
    }
  }

  lemma {:induction false} OnlyBase(times: seq<Time>, history: seq<Time>, startsAt: Time, d: Duration, n: nat, t: Time)
    requires !d.NonZero() && Continues(times, history, WorkerShifter(d), BaseOf(history, startsAt), n)
    requires IsCycle(WorkerShifter(d), BaseOf(history, startsAt), n + 1, t)
    ensures t in times <==> times != []
  {
    var base := BaseOf(history, startsAt);
    forall i: nat
      ensures Iterate(WorkerShifter(d), base, i) == base
    {
      EmptyStaysPut(d, base, i);
    }
    assert t == base;
    assert times == history + times[|history|..];
    hide Iterate, WorkerShifter;
    if times != [] && history == [] {
      assert IsCycle(WorkerShifter(d), base, n, times[0]) by { assert times[0] in times[|history|..]; }
    }
  }

  /** Then every accepted insert but the very first repeats a time. */
  lemma {:induction false} ReinsertsIffEmits(db: Db, steps: seq<Step>, sub: Id, ent: Id, d: Duration, i: nat)
    requires UniqueEmissions(db.grants) && Renews(db, sub, d) && !d.NonZero() && AllKeepPlan(steps, sub)
    requires i < |steps|
    ensures var now := At(Start(db), steps, i);
            Reinserts(now, steps[i], sub, ent)
            <==> Inserts(now, steps[i], sub, ent) && Times(now.db.grants, sub, ent) != []
  {
    var now, history := At(Start(db), steps, i), Times(db.grants, sub, ent);
    assert history[|history|..] == [];
    var n := WorkersStayGapless(Start(db), steps[..i], sub, ent, d, history, 0);
    SameStarts(Start(db), steps[..i], sub);
    hide Times, Continues, IsCycle, Interleave, Renewing;
    if Inserts(now, steps[i], sub, ent) {
      var row := now.pending[steps[i].worker];
      assert OnChain(row, sub, ent, WorkerShifter(d), BaseOf(history, db.subs[sub].startsAt), n);
      OnlyBase(Times(now.db.grants, sub, ent), history, db.subs[sub].startsAt, d, n, row.effectiveAt);
    }
  }

  /** With an empty interval, each time is emitted once if and only if nothing is emitted for the
      entry once it has been given a grant; no void under a worker is needed for a repeat. */
  lemma {:induction false} OnceIffNothingMore(db: Db, steps: seq<Step>, sub: Id, ent: Id, d: Duration)
    requires UniqueEmissions(db.grants) && Renews(db, sub, d) && !d.NonZero() && AllKeepPlan(steps, sub)
    requires NoRepeats(Times(db.grants, sub, ent))
    ensures NoRepeats(Times(Interleave(Start(db), steps).db.grants, sub, ent))
            <==> forall i :: 0 <= i < |steps| && Inserts(At(Start(db), steps, i), steps[i], sub, ent) ==>
                   Times(At(Start(db), steps, i).db.grants, sub, ent) == []
  {
    OnceIffNoReinsert(Start(db), steps, sub, ent);
    forall i | 0 <= i < |steps|
      ensures var now := At(Start(db), steps, i);
              Reinserts(now, steps[i], sub, ent)
              <==> Inserts(now, steps[i], sub, ent) && Times(now.db.grants, sub, ent) != []
    {
      ReinsertsIffEmits(db, steps, sub, ent, d, i);
    }
    hide Times, Interleave, Reinserts, Inserts, At, Renews;
  }

  // ---- The race ----

  function BothOpen(db: Db, now: Time): World {
    var first := Take(Take(Start(db), Open(0)), Load(0, now));
    Take(Take(first, Open(1)), Load(1, now))
  }

  /** Two passes decide on the same entry; the first inserts, its grant is voided, the second
      inserts the cycle again: the emission index does not see voided rows. */
  function Raced(db: Db, i: nat, now: Time, at: Time): World {
    var decided2 := Interleave(Interleave(BothOpen(db, now), Drain(0, i + 1)), Drain(1, i + 1));
    var voided := Take(Take(decided2, Write(0)), Operate(DoVoid(|db.grants|, at)));
    Take(voided, Write(1))
  }

  lemma {:induction false} NextAccepted(db: Db, sub: Id, ent: Id, k: nat, d: Duration, now: Time)
    requires Served(db, sub, ent, k, d) && NextDue(db, sub, ent, d, now) != []
    ensures var row := Prepare(db, sub, PlanOf(db, sub).entries[k], d, now);
            && row.Some? && InsertGrant(db, row.value).Ok?
            && LiveGrant(row.value) && EmittedFor(row.value, sub, ent)
            && row.value.effectiveAt == NextDue(db, sub, ent, d, now)[0]
  {
    hide Times, HasLive, GrantClash, WorkerShifter;
    AmountPositive(PlanOf(db, sub).entries, k);
    ClashIffLive(db.grants, Prepare(db, sub, PlanOf(db, sub).entries[k], d, now).value, sub, ent);
  }

  lemma {:induction false} BothListed(db: Db, now: Time)
    ensures var w := BothOpen(db, now);
            w.db == db && 0 in w.passes && 1 in w.passes
            && w.passes[0] == w.passes[1] == Listing(db, now, Worklist(db))
  {
    hide Worklist;
  }

  /** Both passes hold the same row. */
  lemma {:induction false} BothDecide(db: Db, i: nat, now: Time, row: GrantRow)
    requires i < |Worklist(db)| && DecideRow(Listing(db, now, Worklist(db)), db.grants, Worklist(db)[i]) == Some(row)
    ensures var decided2 := Interleave(Interleave(BothOpen(db, now), Drain(0, i + 1)), Drain(1, i + 1));
            decided2.db == db && Holds(decided2, 0, row) && Holds(decided2, 1, row)
  {
    hide *;
    BothListed(db, now);
    ComesToHold(BothOpen(db, now), 0, 1, i, row);
    ComesToHold(Interleave(BothOpen(db, now), Drain(0, i + 1)), 1, 0, i, row);
  }

  lemma {:induction false} WritesTwice(w: World, row: GrantRow, at: Time)
    requires Holds(w, 0, row) && Holds(w, 1, row) && LiveGrant(row) && InsertGrant(w.db, row).Ok?
    ensures var voided := Take(Take(w, Write(0)), Operate(DoVoid(|w.db.grants|, at)));
            Take(voided, Write(1)).db.grants == w.db.grants + [row.(voidedAt := Some(at))] + [row]
  {
    var db, voided := w.db, row.(voidedAt := Some(at));
    var inserted := db.(grants := db.grants + [row]);
    assert (db.grants + [row])[|db.grants| := voided] == db.grants + [voided];
    assert Lifecycle.Step(inserted, DoVoid(|db.grants|, at)) == db.(grants := db.grants + [voided]);
    forall i | 0 <= i < |db.grants + [voided]|
      ensures row.subscription.Some? ==> !SameEmission((db.grants + [voided])[i], row)
    {
      assert i < |db.grants| && row.subscription.Some? ==> !SameEmission(db.grants[i], row);
    }
    assert InsertGrant(db.(grants := db.grants + [voided]), row).Ok?;
    hide GrantClash, Lifecycle.Step;
  }

  lemma {:induction false} NextDecided(db: Db, sub: Id, ent: Id, k: nat, d: Duration, now: Time) returns (row: GrantRow)
    requires Served(db, sub, ent, k, d) && NextDue(db, sub, ent, d, now) != []
    ensures DecideRow(Listing(db, now, Worklist(db)), db.grants, Task(sub, k)) == Some(row)
    ensures InsertGrant(db, row).Ok? && LiveGrant(row) && EmittedFor(row, sub, ent)
    ensures row.effectiveAt == NextDue(db, sub, ent, d, now)[0]
  {
    NextAccepted(db, sub, ent, k, d, now);
    row := Prepare(db, sub, PlanOf(db, sub).entries[k], d, now).value;
    assert db.(grants := db.grants) == db;
    hide Prepare, GrantClash, NextDue, Worklist;
  }

  lemma {:induction false} RacedInserts(db: Db, i: nat, now: Time, at: Time, row: GrantRow)
    requires i < |Worklist(db)| && DecideRow(Listing(db, now, Worklist(db)), db.grants, Worklist(db)[i]) == Some(row)
    requires LiveGrant(row) && InsertGrant(db, row).Ok?
    ensures Raced(db, i, now, at).db.grants == db.grants + [row.(voidedAt := Some(at))] + [row]
  {
    hide DecideRow, Worklist, Take, Interleave, Drain, InsertGrant, BothOpen;
    BothDecide(db, i, now, row);
    WritesTwice(Interleave(Interleave(BothOpen(db, now), Drain(0, i + 1)), Drain(1, i + 1)), row, at);
  }

  lemma {:induction false} VoidedCycleReemitted(db: Db, sub: Id, ent: Id, k: nat, d: Duration, now: Time, at: Time)
    returns (i: nat)
    requires Served(db, sub, ent, k, d) && NextDue(db, sub, ent, d, now) != []
    ensures i < |Worklist(db)| && Worklist(db)[i] == Task(sub, k)
    ensures var next := NextDue(db, sub, ent, d, now)[0];
            Times(Raced(db, i, now, at).db.grants, sub, ent) == Times(db.grants, sub, ent) + [next, next]
  {
    i := WhereListed(db, sub, k);
    var row := NextDecided(db, sub, ent, k, d, now);
    var voided := row.(voidedAt := Some(at));
    hide Served, Times, DecideRow, InsertGrant, NextDue, Worklist, Raced;
    RacedInserts(db, i, now, at, row);
    TimesAppend(db.grants, voided, sub, ent);
    TimesAppend(db.grants + [voided], row, sub, ent);
  }
}
