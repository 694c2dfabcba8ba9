/** Starting from a stored snapshot instead of the anchor: when it gives the same
    answers as the full replay, and what holds when it does not. */
module Seeding {
  import opened Options
  import opened Calendar
  import opened Periods
  import opened Ledger
  import opened Soundness
  import opened Dominance

  // ---- A run depends only on the periods it has closed ----

  lemma {:induction false} StateAtPrefix(inp: Inputs, ps: seq<Period>, qs: seq<Period>, start: nat, st0: State, j: nat)
    requires start <= j <= |ps| && j <= |qs| && ps[..j] == qs[..j]
    ensures StateAt(inp, ps, start, st0, j) == StateAt(inp, qs, start, st0, j)
    ensures Captured(inp, ps, start, st0, j) == Captured(inp, qs, start, st0, j)
    decreases j
  {
    hide Close;
    if start < j {
      assert ps[j - 1] == ps[..j][j - 1] == qs[..j][j - 1] == qs[j - 1];
      assert ps[..j - 1] == ps[..j][..j - 1] == qs[..j][..j - 1] == qs[..j - 1];
      StateAtPrefix(inp, ps, qs, start, st0, j - 1);
    }
  }

  /** The k-th captured snapshot is the state after closing k periods. */
  lemma {:induction false} CapturedAt(inp: Inputs, ps: seq<Period>, start: nat, st0: State, k: nat, j: nat)
    requires start < k <= j <= |ps|
    ensures Captured(inp, ps, start, st0, j)[k - start - 1]
            == SnapshotOf(StateAt(inp, ps, start, st0, k).active, ps[k - 1].to)
    decreases j
  {
    hide Close, SnapshotOf;
    if k < j {
      CapturedAt(inp, ps, start, st0, k, j - 1);
    }
  }

  /** Every snapshot a computation returns is its state after closing some period. */
  lemma {:induction false} OfferedAt(inp: Inputs, ps: seq<Period>, t: Time, seed: Option<Snapshot>, snap: Snapshot)
    returns (j: nat)
    requires |ps| > 0 && snap in Periodic(inp, ps, t, seed).1
    ensures var (start, st0) := Beginning(inp.grants, ps, seed);
            start < j < |ps| && snap == SnapshotOf(StateAt(inp, ps, start, st0, j).active, ps[j - 1].to)
  {
    hide Beginning, Answer, Close, SnapshotOf;
    var begin := Beginning(inp.grants, ps, seed);
    var snaps := Captured(inp, ps, begin.0, begin.1, |ps| - 1);
    var i :| 0 <= i < |snaps| && snaps[i] == snap;
    j := begin.0 + i + 1;
    CapturedAt(inp, ps, begin.0, begin.1, j, |ps| - 1);
  }

  // ---- Reading a snapshot back ----

  function IdsOf(s: seq<Active>): set<Id> {
    set a | a in s :: a.grant.id
  }

  lemma {:induction false} LookupFinds(grants: seq<Grant>, g: Grant)
    requires UniqueIds(grants) && g in grants
    ensures Lookup(grants, g.id) == Some(g)
  {
    if grants[|grants| - 1] != g {
      assert g in grants[..|grants| - 1];
      LookupFinds(grants[..|grants| - 1], g);
    }
  }

  /** Seeding from a snapshot restores exactly the grants in play. */
  lemma {:induction false} SeedRestores(grants: seq<Grant>, s: seq<Active>)
    requires UniqueIds(grants) && forall a :: a in s ==> a.grant in grants
    ensures Seed(grants, StatesOf(s)) == State(s, IdsOf(s))
  {
    if s == [] {
      assert StatesOf(s) == [];
    } else {
      var front, a := s[..|s| - 1], s[|s| - 1];
      assert StatesOf(s)[..|s| - 1] == StatesOf(front);
      SeedRestores(grants, front);
      assert a in s;
      LookupFinds(grants, a.grant);
      assert s == front + [a];
      assert IdsOf(s) == IdsOf(front) + {a.grant.id};
    }
  }

  lemma {:induction false} FindsStart(periods: seq<Period>, k: nat, i: nat)
    requires Contiguous(periods) && i <= k < |periods|
    ensures FindStart(periods, periods[k].from, i) == Some(k)
    decreases k - i
  {
    if i < k {
      StartsIncrease(periods, i, k);
      FindsStart(periods, k, i + 1);
    }
  }

  lemma {:induction false} NoStart(periods: seq<Period>, asOf: Time, i: nat)
    requires i <= |periods| && forall k :: i <= k < |periods| ==> periods[k].from != asOf
    ensures FindStart(periods, asOf, i) == None
    decreases |periods| - i
  {
    if i < |periods| {
      NoStart(periods, asOf, i + 1);
    }
  }

  // ---- When a seeded run opens like the replay ----

  function ListedIds(snap: Snapshot): set<Id> {
    set gs | gs in snap.perGrant :: gs.grantId
  }

  /** Every grant that was effective and unexpired at the boundary is in the snapshot:
      none had been drained or capped to nothing. */
  predicate AllListed(grants: seq<Grant>, snap: Snapshot) {
    forall g :: g in grants && g.effectiveAt < snap.asOf && !Expired(g, snap.asOf) ==> g.id in ListedIds(snap)
  }

  lemma {:induction false} ListedIdsAre(s: seq<Active>, asOf: Time)
    ensures ListedIds(SnapshotOf(s, asOf)) == IdsOf(s)
  {
  }

  lemma {:induction false} PruneAppend(a: seq<Active>, b: seq<Active>, at: Time)
    ensures Prune(a + b, at) == Prune(a, at) + Prune(b, at)
  {
    if b == [] {
      assert a + b == a;
    } else {
      PruneAppend(a, b[..|b| - 1], at);
      assert (a + b)[..|a + b| - 1] == a + b[..|b| - 1];
    }
  }

  lemma {:induction false} LastAdmission(grants: seq<Grant>, seen: set<Id>, p: Period, first: bool)
    requires grants != []
    ensures var front, g := grants[..|grants| - 1], grants[|grants| - 1];
            var (admitted, marked) := Admit(front, seen, p, first);
            Prune(Admit(grants, seen, p, first).0, p.from)
            == if g.id !in marked && Due(g, p, first) && !Expired(g, p.from)
               then Prune(admitted, p.from) + [Active(g, g.amount)]
               else Prune(admitted, p.from)
  {
  }

  /** Which way the last grant goes in both runs. */
  lemma {:induction false} LastLate(all: seq<Grant>, n: nat, listed: set<Id>, p: Period)
    requires UniqueIds(all) && 0 < n <= |all| && p.from < p.to && listed <= IdsBefore(all, p.from)
    ensures var front, g := all[..n - 1], all[n - 1];
            && (g.id in Admit(front, listed, p, true).1 <==> g.id in listed)
            && (g.id in Admit(front, IdsBefore(all, p.from), p, false).1 <==> g.effectiveAt < p.from)
            && (g.id in listed ==> g.effectiveAt < p.from)
  {
    var front, g := all[..n - 1], all[n - 1];
    AdmitFacts(front, listed, p, true);
    AdmitFacts(front, IdsBefore(all, p.from), p, false);
    hide Admit;
    assert g in all && g.id !in IdsDue(front, p, true) && g.id !in IdsDue(front, p, false);
    assert g.id in IdsBefore(all, p.from) <==> g.effectiveAt < p.from;
  }

  /** Nothing but expired grants is let in late, in list order, when all are listed. */
  lemma {:induction false} LateAdmissionsExpired(all: seq<Grant>, n: nat, listed: set<Id>, p: Period)
    requires UniqueIds(all) && n <= |all| && p.from < p.to
    requires listed <= IdsBefore(all, p.from)
    requires forall g :: g in all && g.effectiveAt < p.from && !Expired(g, p.from) ==> g.id in listed
    ensures Prune(Admit(all[..n], listed, p, true).0, p.from)
            == Prune(Admit(all[..n], IdsBefore(all, p.from), p, false).0, p.from)
  {
    if n > 0 {
      LateAdmissionsExpired(all, n - 1, listed, p);
      assert all[..n][..n - 1] == all[..n - 1] && all[..n][n - 1] == all[n - 1] && all[n - 1] in all;
      LastLate(all, n, listed, p);
      hide Admit, Prune, IdsBefore, Expired, UniqueIds;
      LastAdmission(all[..n], listed, p, true);
      LastAdmission(all[..n], IdsBefore(all, p.from), p, false);
    }
  }

  lemma {:induction false} SeededMarks(inp: Inputs, st: State, p: Period)
    requires WellFormed(inp) && Sound(inp.grants, st) && p.from < p.to
    requires st.seen == IdsBefore(inp.grants, p.from)
    ensures IdsOf(st.active) <= st.seen
    ensures Admit(inp.grants, IdsOf(st.active), p, true).1 == Admit(inp.grants, st.seen, p, false).1
  {
    AdmitFacts(inp.grants, IdsOf(st.active), p, true);
    AdmitFacts(inp.grants, st.seen, p, false);
    IdsSplit(inp.grants, p);
  }

  /** An unlisted live grant is let in again, at its full amount. */
  lemma {:induction false} LateComer(inp: Inputs, st: State, p: Period, g: Grant)
    requires WellFormed(inp) && Sound(inp.grants, st) && g in inp.grants
    requires g.effectiveAt < p.from && !Expired(g, p.from) && g.id !in IdsOf(st.active)
    ensures Active(g, g.amount) in Open(inp, State(st.active, IdsOf(st.active)), p, true).active
    ensures Active(g, g.amount) !in Open(inp, st, p, false).active
  {
    var late, due := Admit(inp.grants, IdsOf(st.active), p, true).0, Admit(inp.grants, st.seen, p, false).0;
    AdmitComplete(inp.grants, IdsOf(st.active), p, true, g);
    AdmitFacts(inp.grants, st.seen, p, false);
    PruneFacts(st.active + late, p.from);
    PruneFacts(st.active + due, p.from);
  }

  /** The seeded run and the replay are in the same state once the seeded period has opened
      exactly when the snapshot lists every live grant. */
  lemma {:induction false} SeededOpensAlike(inp: Inputs, st: State, p: Period)
    requires WellFormed(inp) && Sound(inp.grants, st) && p.from < p.to
    requires st.seen == IdsBefore(inp.grants, p.from)
    ensures Open(inp, State(st.active, IdsOf(st.active)), p, true) == Open(inp, st, p, false)
            <==> AllListed(inp.grants, SnapshotOf(st.active, p.from))
  {
    var all, listed := inp.grants, IdsOf(st.active);
    var seeded := State(st.active, listed);
    var late, due := Admit(all, listed, p, true).0, Admit(all, st.seen, p, false).0;
    ListedIdsAre(st.active, p.from);
    PruneAppend(st.active, late, p.from);
    PruneAppend(st.active, due, p.from);
    SeededMarks(inp, st, p);
    if AllListed(all, SnapshotOf(st.active, p.from)) {
      LateAdmissionsExpired(all, |all|, listed, p);
      assert all[..|all|] == all;
    } else {
      var g :| g in all && g.effectiveAt < p.from && !Expired(g, p.from) && g.id !in listed;
      LateComer(inp, st, p, g);
    }
  }

  // ---- From there on ----

  lemma {:induction false} CloseFromOpen(inp: Inputs, a: State, b: State, p: Period, firstA: bool, firstB: bool,
                                         t: Time)
    requires Open(inp, a, p, firstA) == Open(inp, b, p, firstB)
    ensures Close(inp, a, p, firstA) == Close(inp, b, p, firstB)
    ensures AnswerIn(inp, a, p, firstA, t) == AnswerIn(inp, b, p, firstB, t)
  {
  }

  lemma {:induction false} StaysAlike(inp: Inputs, ps: seq<Period>, k: nat, seeded: State, j: nat)
    requires 0 < k < j <= |ps|
    requires Open(inp, seeded, ps[k], true) == Open(inp, StateAt(inp, ps, 0, FRESH, k), ps[k], false)
    ensures StateAt(inp, ps, k, seeded, j) == StateAt(inp, ps, 0, FRESH, j)
    ensures Captured(inp, ps, k, seeded, j) == Captured(inp, ps, 0, FRESH, j)[k..]
    decreases j
  {
    hide Open, Close;
    if j == k + 1 {
      CloseFromOpen(inp, seeded, StateAt(inp, ps, 0, FRESH, k), ps[k], true, false, 0);
      assert Captured(inp, ps, k, seeded, k) == [];
      assert Captured(inp, ps, 0, FRESH, k)[k..] == [];
    } else {
      StaysAlike(inp, ps, k, seeded, j - 1);
    }
  }

  lemma {:induction false} BeginsFresh(grants: seq<Grant>, ps: seq<Period>)
    ensures Beginning(grants, ps, None) == (0, FRESH)
  {
  }

  lemma {:induction false} SeededBegins(inp: Inputs, ps: seq<Period>, k: nat)
    requires WellFormed(inp) && Contiguous(ps) && 0 < k < |ps|
    ensures var st := StateAt(inp, ps, 0, FRESH, k);
            Beginning(inp.grants, ps, Some(SnapshotOf(st.active, ps[k].from)))
                    == (k, State(st.active, IdsOf(st.active)))
  {
    StateAtSound(inp, ps, 0, FRESH, k);
    var st := StateAt(inp, ps, 0, FRESH, k);
    SeedRestores(inp.grants, st.active);
    FindsStart(ps, k, 0);
  }

  lemma {:induction false} SeededState(inp: Inputs, ps: seq<Period>, k: nat)
    requires WellFormed(inp) && Contiguous(ps) && 0 < k < |ps|
    ensures var st := StateAt(inp, ps, 0, FRESH, k);
            Sound(inp.grants, st) && st.seen == IdsBefore(inp.grants, ps[k].from)
  {
    StateAtSound(inp, ps, 0, FRESH, k);
    SeenIsBefore(inp, ps, 0, FRESH, k);
    assert ps[k - 1].to == ps[k].from;
  }

  /** A seeded run that opens like the replay answers and captures like it. */
  lemma {:induction false} SeededRun(inp: Inputs, ps: seq<Period>, k: nat, seeded: State, t: Time)
    requires 0 < k < |ps|
    requires Open(inp, seeded, ps[k], true) == Open(inp, StateAt(inp, ps, 0, FRESH, k), ps[k], false)
    ensures Answer(inp, ps, k, seeded, t) == Answer(inp, ps, 0, FRESH, t)
    ensures Captured(inp, ps, k, seeded, |ps| - 1) == Captured(inp, ps, 0, FRESH, |ps| - 1)[k..]
  {
    hide Open, Close, AnswerIn;
    if k == |ps| - 1 {
      CloseFromOpen(inp, seeded, StateAt(inp, ps, 0, FRESH, k), ps[k], true, false, t);
      assert Captured(inp, ps, k, seeded, k) == [];
      assert Captured(inp, ps, 0, FRESH, k)[k..] == [];
    } else {
      StaysAlike(inp, ps, k, seeded, |ps| - 1);
    }
  }

  /** Snapshot soundness over given periods: seeded with the replay's own k-th snapshot, which
      lists every live grant, a run gives the replay's answer and its remaining snapshots. */
  lemma {:induction false} SeededAnswers(inp: Inputs, ps: seq<Period>, k: nat, t: Time)
    requires WellFormed(inp) && Contiguous(ps) && 0 < k < |ps|
    requires AllListed(inp.grants, SnapshotOf(StateAt(inp, ps, 0, FRESH, k).active, ps[k].from))
    ensures var snap := SnapshotOf(StateAt(inp, ps, 0, FRESH, k).active, ps[k].from);
            && Periodic(inp, ps, t, Some(snap)).0 == Periodic(inp, ps, t, None).0
            && Periodic(inp, ps, t, Some(snap)).1 == Periodic(inp, ps, t, None).1[k..]
  {
    var st := StateAt(inp, ps, 0, FRESH, k);
    var seeded := State(st.active, IdsOf(st.active));
    assert Open(inp, seeded, ps[k], true) == Open(inp, st, ps[k], false) by {
      SeededState(inp, ps, k);
      SeededOpensAlike(inp, st, ps[k]);
    }
    SeededBegins(inp, ps, k);
    hide Open, Close, Answer, WellFormed, AllListed, Beginning;
    SeededRun(inp, ps, k, seeded, t);
    BeginsFresh(inp.grants, ps);
  }

  // ---- Without the condition: never less ----

  lemma {:induction false} SelfComparable(inp: Inputs)
    requires WellFormed(inp) && KeysApart(inp.grants) && forall from, to :: inp.usage(from, to) >= 0
    ensures Comparable(inp, inp)
  {
  }

  /** Whatever a seed holds, if it covers the replay's state at its boundary, then the
      seeded run covers the replay at every later boundary and answers with at least as much. */
  lemma {:induction false} SeededAtLeast(inp: Inputs, ps: seq<Period>, k: nat, seeded: State, j: nat, t: Time)
    requires WellFormed(inp) && KeysApart(inp.grants) && Contiguous(ps) && 0 < k <= j < |ps|
    requires forall from, to :: inp.usage(from, to) >= 0
    requires Sound(inp.grants, seeded) && seeded.seen <= IdsBefore(inp.grants, ps[k].from)
    requires Covers(seeded.active, StateAt(inp, ps, 0, FRESH, k).active)
    ensures Covers(StateAt(inp, ps, k, seeded, j).active, StateAt(inp, ps, 0, FRESH, j).active)
    ensures AtLeast(Answer(inp, ps, k, seeded, t), Answer(inp, ps, 0, FRESH, t))
  {
    var replay, run := Run(inp, 0, FRESH), Run(inp, k, seeded);
    var st := StateAt(inp, ps, 0, FRESH, k);
    assert Comparable(inp, inp) by { SelfComparable(inp); }
    SeededState(inp, ps, k);
    OpenCovers(inp, inp, seeded, st, ps[k], true, false);
    hide Open, Close, AnswerIn, Covers, Comparable;
    StaysCovered(run, replay, ps, k, j);
    AnswersAtLeast(run, replay, ps, k, t);
    LastAnswer(run, ps, t);
    LastAnswer(replay, ps, t);
  }

  lemma {:induction false} CoversItself(s: seq<Active>)
    ensures Covers(s, s)
  {
  }

  lemma {:induction false} SeedIsSound(inp: Inputs, st: State, t: Time)
    requires Sound(inp.grants, st) && st.seen <= IdsBefore(inp.grants, t)
    ensures Sound(inp.grants, State(st.active, IdsOf(st.active)))
    ensures IdsOf(st.active) <= IdsBefore(inp.grants, t)
  {
  }

  /** Seeding with any snapshot of the replay, drained grants or not, never understates:
      no grant at any later boundary, nor the answer. */
  lemma {:induction false} SeedingNeverUnderstates(inp: Inputs, ps: seq<Period>, k: nat, j: nat, t: Time)
    requires WellFormed(inp) && KeysApart(inp.grants) && Contiguous(ps) && 0 < k <= j < |ps|
    requires forall from, to :: inp.usage(from, to) >= 0
    ensures var snap := SnapshotOf(StateAt(inp, ps, 0, FRESH, k).active, ps[k].from);
            var (start, st0) := Beginning(inp.grants, ps, Some(snap));
            && start == k
            && Covers(StateAt(inp, ps, k, st0, j).active, StateAt(inp, ps, 0, FRESH, j).active)
            && AtLeast(Periodic(inp, ps, t, Some(snap)).0, Periodic(inp, ps, t, None).0)
  {
    var st := StateAt(inp, ps, 0, FRESH, k);
    SeededBegins(inp, ps, k);
    SeededState(inp, ps, k);
    SeedIsSound(inp, st, ps[k].from);
    CoversItself(st.active);
    SeededAtLeast(inp, ps, k, State(st.active, IdsOf(st.active)), j, t);
  }
}
