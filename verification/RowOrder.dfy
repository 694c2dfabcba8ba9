/** The grants arrive in whatever order the database lists them and leave `sort.Slice` in whatever
    order its ties fall: without ties neither matters, over whole runs. */
module RowOrder {
  import opened Options
  import opened Calendar
  import opened Periods
  import opened Ledger
  import opened Sorting
  import opened Sequences
  import opened Stateless
  import opened Soundness
  import opened Dominance
  import opened Seeding

  /** The same grants in another order, the same meter, another sort. */
  ghost predicate Reordered(a: Inputs, b: Inputs) {
    && WellFormed(a) && Sorts(b.sort) && KeysApart(a.grants)
    && multiset(a.grants) == multiset(b.grants) && a.usage == b.usage
  }

  lemma {:induction false} SameGrants(a: Inputs, b: Inputs)
    requires Reordered(a, b)
    ensures WellFormed(b) && KeysApart(b.grants)
    ensures forall g :: g in a.grants <==> g in b.grants
  {
    assert forall g :: g in a.grants <==> g in multiset(a.grants);
    assert forall g :: g in b.grants <==> g in multiset(b.grants);
    assert NoRepeats(a.grants);
    NoRepeatsPermutes(a.grants, b.grants);
    forall i | 0 <= i < |b.grants|
      ensures b.grants[i] in a.grants
    {
      assert b.grants[i] in b.grants;
    }
  }

  // ---- One period ----

  /** What is in play once a period has opened, without reference to any order. */
  lemma {:induction false} OpenHolds(inp: Inputs, st: State, p: Period, first: bool, x: Active)
    requires WellFormed(inp) && Sound(inp.grants, st)
    ensures x in Open(inp, st, p, first).active <==>
            && !Expired(x.grant, p.from)
            && (x in st.active
                || (x.grant in inp.grants && x.remaining == x.grant.amount
                    && Due(x.grant, p, first) && x.grant.id !in st.seen))
  {
    var admitted := Admit(inp.grants, st.seen, p, first).0;
    AdmitFacts(inp.grants, st.seen, p, first);
    PruneFacts(st.active + admitted, p.from);
    if x.grant in inp.grants && x.remaining == x.grant.amount && Due(x.grant, p, first) && x.grant.id !in st.seen {
      AdmitComplete(inp.grants, st.seen, p, first, x.grant);
    }
  }

  lemma {:induction false} IdsDueAgree(a: seq<Grant>, b: seq<Grant>, p: Period, first: bool)
    requires forall g :: g in a <==> g in b
    ensures IdsDue(a, p, first) == IdsDue(b, p, first)
  {
  }

  lemma {:induction false} OpensPermuted(a: Inputs, b: Inputs, st: State, p: Period, first: bool)
    requires Reordered(a, b) && Sound(a.grants, st)
    ensures Sound(b.grants, st)
    ensures multiset(Open(a, st, p, first).active) == multiset(Open(b, st, p, first).active)
    ensures Open(a, st, p, first).seen == Open(b, st, p, first).seen
  {
    SameGrants(a, b);
    assert Sound(b.grants, st);
    OpenKeepsSound(a, st, p, first);
    OpenKeepsSound(b, st, p, first);
    IdsDueAgree(a.grants, b.grants, p, first);
    var openA, openB := Open(a, st, p, first).active, Open(b, st, p, first).active;
    forall x
      ensures x in openA <==> x in openB
    {
      OpenHolds(a, st, p, first, x);
      OpenHolds(b, st, p, first, x);
    }
    SameElementsPermute(openA, openB);
  }

  lemma {:induction false} SpendsAgree(a: Inputs, b: Inputs, st: State, p: Period, first: bool, upTo: Time)
    requires Reordered(a, b) && Sound(a.grants, st)
    ensures Spend(a, st, p, first, upTo) == Spend(b, st, p, first, upTo)
  {
    OpensPermuted(a, b, st, p, first);
    SameGrants(a, b);
    SpendKeepsSound(a, st, p, first, upTo);
    SpendKeepsSound(b, st, p, first, upTo);
    hide Open, Sound;
    var openA, openB := Open(a, st, p, first), Open(b, st, p, first);
    SoundKeys(a.grants, State(a.sort(openA.active), openA.seen));
    SoundKeys(b.grants, State(b.sort(openB.active), openB.seen));
    OrderIsUnique(a.sort(openA.active), b.sort(openB.active));
  }

  lemma {:induction false} ClosesAgree(a: Inputs, b: Inputs, st: State, p: Period, first: bool)
    requires Reordered(a, b) && Sound(a.grants, st)
    ensures Close(a, st, p, first) == Close(b, st, p, first)
  {
    SpendsAgree(a, b, st, p, first, p.to);
    OpensPermuted(a, b, st, p, first);
    hide Spend, Roll, Sound, Open, Reordered;
  }

  lemma {:induction false} AnswersAgree(a: Inputs, b: Inputs, st: State, p: Period, first: bool, t: Time)
    requires Reordered(a, b) && Sound(a.grants, st)
    ensures AnswerIn(a, st, p, first, t) == AnswerIn(b, st, p, first, t)
  {
    SpendsAgree(a, b, st, p, first, t);
    hide Spend, LiveSum, Sound;
  }

  // ---- Whole runs ----

  lemma {:induction false} StateStaysSound(a: Inputs, b: Inputs, ps: seq<Period>, start: nat, st0: State, j: nat)
    requires Reordered(a, b) && Sound(a.grants, st0) && start <= j <= |ps|
    ensures Sound(a.grants, StateAt(a, ps, start, st0, j))
  {
    StateAtSound(a, ps, start, st0, j);
  }

  lemma {:induction false} StatesAgree(a: Inputs, b: Inputs, ps: seq<Period>, start: nat, st0: State, j: nat)
    requires Reordered(a, b) && Sound(a.grants, st0) && start <= j <= |ps|
    ensures StateAt(a, ps, start, st0, j) == StateAt(b, ps, start, st0, j)
    ensures Captured(a, ps, start, st0, j) == Captured(b, ps, start, st0, j)
    ensures Sound(a.grants, StateAt(a, ps, start, st0, j))
    decreases j
  {
    hide Close, SnapshotOf, Sound, Reordered;
    StateStaysSound(a, b, ps, start, st0, j);
    if start < j {
      StatesAgree(a, b, ps, start, st0, j - 1);
      ClosesAgree(a, b, StateAt(a, ps, start, st0, j - 1), ps[j - 1], j - 1 == start);
    }
  }

  lemma {:induction false} LookupMisses(grants: seq<Grant>, id: Id)
    requires forall g :: g in grants ==> g.id != id
    ensures Lookup(grants, id) == None
  {
    if grants != [] {
      assert grants[|grants| - 1] in grants;
      LookupMisses(grants[..|grants| - 1], id);
    }
  }

  lemma {:induction false} LookupsAgree(a: Inputs, b: Inputs, id: Id)
    requires Reordered(a, b)
    ensures Lookup(a.grants, id) == Lookup(b.grants, id)
  {
    SameGrants(a, b);
    if g :| g in a.grants && g.id == id {
      LookupFinds(a.grants, g);
      LookupFinds(b.grants, g);
    } else {
      LookupMisses(a.grants, id);
      LookupMisses(b.grants, id);
    }
  }

  lemma {:induction false} SeedsAgree(a: Inputs, b: Inputs, states: seq<GrantState>)
    requires Reordered(a, b)
    ensures Seed(a.grants, states) == Seed(b.grants, states)
  {
    hide Reordered, Lookup;
    if states != [] {
      SeedsAgree(a, b, states[..|states| - 1]);
      LookupsAgree(a, b, states[|states| - 1].grantId);
    }
  }

  lemma {:induction false} BeginningsAgree(a: Inputs, b: Inputs, ps: seq<Period>, seed: Option<Snapshot>)
    requires Reordered(a, b)
    ensures Beginning(a.grants, ps, seed) == Beginning(b.grants, ps, seed)
  {
    if seed.Some? {
      SeedsAgree(a, b, seed.value.perGrant);
    }
  }

  lemma {:induction false} PeriodicParts(inp: Inputs, ps: seq<Period>, t: Time, seed: Option<Snapshot>)
    requires |ps| > 0
    ensures var (start, st0) := Beginning(inp.grants, ps, seed); var last := |ps| - 1;
            Periodic(inp, ps, t, seed)
            == (AnswerIn(inp, StateAt(inp, ps, start, st0, last), ps[last], last == start, t),
                Captured(inp, ps, start, st0, last))
  {
  }

  /** From any sound beginning, seeded or not. */
  lemma {:induction false} PeriodicAgrees(a: Inputs, b: Inputs, ps: seq<Period>, t: Time, seed: Option<Snapshot>)
    requires Reordered(a, b) && |ps| > 0
    requires Sound(a.grants, Beginning(a.grants, ps, seed).1)
    ensures Periodic(a, ps, t, seed) == Periodic(b, ps, t, seed)
  {
    hide AnswerIn, StateAt, Captured, Beginning, Periodic, Sound, Reordered;
    BeginningsAgree(a, b, ps, seed);
    PeriodicParts(a, ps, t, seed);
    PeriodicParts(b, ps, t, seed);
    var (start, st0) := Beginning(a.grants, ps, seed);
    var last := |ps| - 1;
    StatesAgree(a, b, ps, start, st0, last);
    AnswersAgree(a, b, StateAt(a, ps, start, st0, last), ps[last], last == start, t);
  }

  /** With no two grants tied, `CalculateBalance` from the anchor is the same for every order of
      the grants list and for every sort that keeps the promise of `sort.Slice`. */
  lemma {:induction false} OrderIrrelevant(a: Inputs, b: Inputs, ent: Entitlement, t: Time)
    requires WellTimed(ent) && Reordered(a, b)
    requires a.usage(ent.createdAt, t) >= 0
    ensures Calculate(a, ent, t, None) == Calculate(b, ent, t, None)
  {
    if ent.usagePeriod.Every? {
      var d := ent.usagePeriod.duration;
      PositiveSteps(d);
      PositiveStepsBack(d);
      var ps := PeriodsAt(Shifter(d, 1), Shifter(d, -1), ent.Anchor(), t);
      BeginsFresh(a.grants, ps);
      PeriodicAgrees(a, b, ps, t, None);
    } else {
      SameGrants(a, b);
      StatelessOrderFree(a, b, t, a.usage(ent.createdAt, t));
    }
  }
}
