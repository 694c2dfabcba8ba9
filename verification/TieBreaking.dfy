/** When the order of the grants shows: ties among grants with credit left, and the rows of a
    tie in either order. */
module TieBreaking {
  import opened Options
  import opened Calendar
  import opened Periods
  import opened Ledger
  import opened Sorting
  import opened Sequences
  import opened Burning
  import opened Stateless
  import opened Soundness
  import opened Seeding
  import opened Drained

  // ---- Burning without reference to the order of ties ----

  /** No two grants with credit left burn at the same rank. */
  predicate NoCreditTies(s: seq<Active>) {
    forall i, j :: 0 <= i < j < |s| && SameKey(s[i].grant, s[j].grant) ==> s[i].remaining == 0 || s[j].remaining == 0
  }

  /** The credit on grants that burn before `g`. */
  function Ahead(s: seq<Active>, g: Grant): int {
    if s == [] then 0
    else Ahead(s[..|s| - 1], g) + (if Less(s[|s| - 1].grant, g) then s[|s| - 1].remaining else 0)
  }

  lemma {:induction false} AheadAppend(a: seq<Active>, b: seq<Active>, g: Grant)
    ensures Ahead(a + b, g) == Ahead(a, g) + Ahead(b, g)
  {
    if b == [] {
      assert a + b == a;
    } else {
      AheadAppend(a, b[..|b| - 1], g);
      assert (a + b)[..|a + b| - 1] == a + b[..|b| - 1];
    }
  }

  lemma {:induction false} AheadPermutes(a: seq<Active>, b: seq<Active>, g: Grant)
    requires multiset(a) == multiset(b)
    ensures Ahead(a, g) == Ahead(b, g)
  {
    if a == [] {
      SameSize(a, b);
    } else {
      var k := Match(a, b);
      AheadPermutes(a[..|a| - 1], b[..k] + b[k + 1..], g);
      AheadAppend(b[..k], b[k + 1..], g);
      AheadAppend(b[..k], [b[k]], g);
      AheadAppend(b[..k] + [b[k]], b[k + 1..], g);
      assert b == b[..k] + [b[k]] + b[k + 1..];
      assert [b[k]][..0] == [];
    }
  }

  lemma {:induction false} AheadAll(s: seq<Active>, g: Grant)
    requires forall y :: y in s ==> Less(y.grant, g) || y.remaining == 0
    ensures Ahead(s, g) == Sum(s)
  {
    if s != [] {
      assert s[|s| - 1] in s;
      AheadAll(s[..|s| - 1], g);
    }
  }

  lemma {:induction false} AheadNone(s: seq<Active>, g: Grant)
    requires forall y :: y in s ==> !Less(y.grant, g)
    ensures Ahead(s, g) == 0
  {
    if s != [] {
      assert s[|s| - 1] in s;
      AheadNone(s[..|s| - 1], g);
    }
  }

  /** In an ordered list without credit ties, everything before a grant with credit left burns
      before it or is spent, and nothing after it does. */
  lemma {:induction false} Neighbours(t: seq<Active>, p: nat)
    requires Ordered(t) && NoCreditTies(t) && p < |t| && t[p].remaining > 0
    ensures forall y :: y in t[..p] ==> Less(y.grant, t[p].grant) || y.remaining == 0
    ensures forall y :: y in t[p..] ==> !Less(y.grant, t[p].grant)
  {
  }

  /** So what stands before such a grant is what burns before it. */
  lemma {:induction false} PrefixIsAhead(t: seq<Active>, p: nat)
    requires Ordered(t) && NoCreditTies(t) && p < |t| && t[p].remaining > 0
    ensures Sum(t[..p]) == Ahead(t, t[p].grant)
  {
    Neighbours(t, p);
    hide Ahead, Sum, Ordered, NoCreditTies, Less;
    AheadAll(t[..p], t[p].grant);
    AheadNone(t[p..], t[p].grant);
    AheadAppend(t[..p], t[p..], t[p].grant);
    assert t == t[..p] + t[p..];
  }

  /** What is left of `x` once the credit ahead of it is used up. */
  function Left(s: seq<Active>, x: Active, usage: int): Active {
    x.(remaining := Max0(x.remaining - Max0(usage - Ahead(s, x.grant))))
  }

  lemma {:induction false} BurnedIs(t: seq<Active>, usage: int, p: nat)
    requires Ordered(t) && NoCreditTies(t) && NonNegative(t) && usage >= 0 && p < |t|
    ensures |Burn(t, usage).0| == |t| && Burn(t, usage).0[p] == Left(t, t[p], usage)
  {
    BurnKeepsGrants(t, usage);
    BurnAt(t, usage, p);
    if t[p].remaining > 0 {
      PrefixIsAhead(t, p);
    }
  }

  // ---- The orders a list of grants can be put in ----

  /** `t` is the list `s` put in burn order, ties anyhow. */
  ghost predicate InOrder(t: seq<Active>, s: seq<Active>) {
    Ordered(t) && multiset(t) == multiset(s)
  }

  lemma {:induction false} TiesPermute(s: seq<Active>, t: seq<Active>)
    requires UniqueActive(s) && NoCreditTies(s) && multiset(s) == multiset(t)
    ensures NoCreditTies(t)
  {
    UniquePermutes(s, t);
    forall i, j | 0 <= i < j < |t| && SameKey(t[i].grant, t[j].grant)
      ensures t[i].remaining == 0 || t[j].remaining == 0
    {
      assert t[i] in multiset(s) && t[j] in multiset(s);
      var a :| 0 <= a < |s| && s[a] == t[i];
      var b :| 0 <= b < |s| && s[b] == t[j];
    }
  }

  lemma {:induction false} BurnedUnique(t: seq<Active>, usage: int)
    requires UniqueActive(t)
    ensures UniqueActive(Burn(t, usage).0) && NoRepeats(Burn(t, usage).0)
  {
    BurnKeepsGrants(t, usage);
  }

  lemma {:induction false} BurnedHolds(s: seq<Active>, t: seq<Active>, usage: int, r: Active)
    requires UniqueActive(s) && NonNegative(s) && NoCreditTies(s) && usage >= 0 && InOrder(t, s)
    ensures r in Burn(t, usage).0 <==> exists x :: x in s && r == Left(s, x, usage)
  {
    TiesPermute(s, t);
    NonNegativePermutes(s, t);
    forall p | 0 <= p < |t|
      ensures |Burn(t, usage).0| == |t| && Burn(t, usage).0[p] == Left(s, t[p], usage)
    {
      BurnedIs(t, usage, p);
      AheadPermutes(t, s, t[p].grant);
    }
    BurnKeepsGrants(t, usage);
    assert forall x :: x in s <==> x in multiset(s);
    assert forall x :: x in t <==> x in multiset(t);
    if x :| x in s && r == Left(s, x, usage) {
      var p :| 0 <= p < |t| && t[p] == x;
    }
    if p :| 0 <= p < |t| && Burn(t, usage).0[p] == r {
      assert t[p] in s;
    }
  }

  /** Without credit ties every order leaves the same. */
  lemma {:induction false} OrdersAgree(s: seq<Active>, t1: seq<Active>, t2: seq<Active>, usage: int)
    requires UniqueActive(s) && NonNegative(s) && NoCreditTies(s) && usage >= 0
    requires InOrder(t1, s) && InOrder(t2, s)
    ensures multiset(Burn(t1, usage).0) == multiset(Burn(t2, usage).0)
  {
    UniquePermutes(s, t1);
    UniquePermutes(s, t2);
    BurnedUnique(t1, usage);
    BurnedUnique(t2, usage);
    forall r
      ensures r in Burn(t1, usage).0 <==> r in Burn(t2, usage).0
    {
      BurnedHolds(s, t1, usage, r);
      BurnedHolds(s, t2, usage, r);
    }
    SameElementsPermute(Burn(t1, usage).0, Burn(t2, usage).0);
  }

  lemma {:induction false} SwapKeeps(t: seq<Active>, i: nat, j: nat)
    requires UniqueActive(t) && NonNegative(t) && i < j < |t|
    ensures var swapped := t[i := t[j]][j := t[i]];
            UniqueActive(swapped) && NonNegative(swapped) && swapped[..i] == t[..i] && swapped[i] == t[j]
  {
  }

  lemma {:induction false} UntouchedAfter(t: seq<Active>, i: nat, j: nat)
    requires NonNegative(t) && i < j < |t|
    ensures Sum(t[..i + 1]) >= 0 && t[j] in Burn(t, Sum(t[..i + 1])).0
  {
    var usage := Sum(t[..i + 1]);
    PrefixSumGrows(t, 0, i + 1);
    assert t[..0] == [];
    assert usage >= 0;
    assert t[j].remaining >= 0;
    hide Burn, Sum, NonNegative;
    BurnKeepsGrants(t, usage);
    BurnAt(t, usage, j);
    PrefixSumGrows(t, i + 1, j);
    assert Burn(t, usage).0[j] == t[j];
  }

  lemma {:induction false} TouchedFirst(t: seq<Active>, swapped: seq<Active>, i: nat, usage: int, y: Active)
    requires NonNegative(t) && NonNegative(swapped) && i < |t| == |swapped| && swapped[..i] == t[..i]
    requires swapped[i] == y && y.remaining > 0 && t[i].remaining > 0 && usage == Sum(t[..i + 1])
    ensures |Burn(swapped, usage).0| == |swapped| && Burn(swapped, usage).0[i].remaining < y.remaining
  {
    SumNonNegative(t[..i + 1]);
    assert t[..i + 1][..i] == t[..i];
    BurnAt(swapped, usage, i);
  }

  /** Grants stay where they are while burning, so a remainder is found at its grant. */
  lemma {:induction false} FoundAtGrant(t: seq<Active>, usage: int, i: nat, y: Active)
    requires UniqueActive(t) && i < |t| && t[i].grant == y.grant && y in Burn(t, usage).0
    ensures |Burn(t, usage).0| == |t| && Burn(t, usage).0[i] == y
  {
    BurnKeepsGrants(t, usage);
    var k :| 0 <= k < |Burn(t, usage).0| && Burn(t, usage).0[k] == y;
  }

  /** Swapping two grants with credit left shows at some usage: the one that lost its place is
      no longer untouched when the other has just been used up. */
  lemma {:induction false} SwapShows(t: seq<Active>, i: nat, j: nat)
    requires UniqueActive(t) && NonNegative(t) && i < j < |t| && t[i].remaining > 0 && t[j].remaining > 0
    ensures var swapped, usage := t[i := t[j]][j := t[i]], Sum(t[..i + 1]);
            usage >= 0 && multiset(Burn(t, usage).0) != multiset(Burn(swapped, usage).0)
  {
    var swapped, usage := t[i := t[j]][j := t[i]], Sum(t[..i + 1]);
    SwapKeeps(t, i, j);
    hide Burn, Sum, NonNegative, UniqueActive;
    UntouchedAfter(t, i, j);
    TouchedFirst(t, swapped, i, usage, t[j]);
    if multiset(Burn(t, usage).0) == multiset(Burn(swapped, usage).0) {
      assert t[j] in multiset(Burn(swapped, usage).0);
      FoundAtGrant(swapped, usage, i, t[j]);
    }
  }

  // ---- Exactly when the order shows ----

  /** Every order of the rows, each put in burn order by insertion, leaves the same at every usage. */
  ghost predicate RowOrderHidden(s: seq<Active>) {
    forall rows, others, usage: int ::
      multiset(rows) == multiset(s) && multiset(others) == multiset(s) && usage >= 0 ==>
      multiset(Burn(StableSort(rows), usage).0) == multiset(Burn(StableSort(others), usage).0)
  }

  /** Every sort that keeps the promise of `sort.Slice` leaves the same at every usage. */
  ghost predicate SortHidden(s: seq<Active>) {
    forall f: Sorter, g: Sorter, usage: int :: Sorts(f) && Sorts(g) && usage >= 0 ==>
      multiset(Burn(f(s), usage).0) == multiset(Burn(g(s), usage).0)
  }

  lemma {:induction false} SortedStays(t: seq<Active>)
    requires Ordered(t)
    ensures StableSort(t) == t
  {
    if t != [] {
      SortedStays(t[..|t| - 1]);
    }
  }

  lemma {:induction false} SwapKeepsOrder(t: seq<Active>, i: nat, j: nat)
    requires Ordered(t) && i < j < |t| && SameKey(t[i].grant, t[j].grant)
    ensures InOrder(t[i := t[j]][j := t[i]], t)
  {
  }

  /** A credit tie survives sorting. */
  lemma {:induction false} TieIn(s: seq<Active>) returns (i: nat, j: nat)
    requires UniqueActive(s) && NonNegative(s) && !NoCreditTies(s)
    ensures var t := StableSort(s);
            i < j < |t| && SameKey(t[i].grant, t[j].grant) && t[i].remaining > 0 && t[j].remaining > 0
  {
    var t := StableSort(s);
    StableSortMeets(s);
    UniquePermutes(s, t);
    NonNegativePermutes(s, t);
    if NoCreditTies(t) {
      TiesPermute(t, s);
    }
    i, j :| 0 <= i < j < |t| && SameKey(t[i].grant, t[j].grant) && t[i].remaining != 0 && t[j].remaining != 0;
  }

  lemma {:induction false} SortedSwapShows(s: seq<Active>, i: nat, j: nat)
    requires UniqueActive(s) && NonNegative(s) && i < j < |StableSort(s)|
    requires var t := StableSort(s); SameKey(t[i].grant, t[j].grant) && t[i].remaining > 0 && t[j].remaining > 0
    ensures var t := StableSort(s); var swapped, usage := t[i := t[j]][j := t[i]], Sum(t[..i + 1]);
            && usage >= 0 && InOrder(swapped, s) && StableSort(swapped) == swapped
            && multiset(Burn(t, usage).0) != multiset(Burn(swapped, usage).0)
  {
    var t := StableSort(s);
    StableSortMeets(s);
    UniquePermutes(s, t);
    NonNegativePermutes(s, t);
    hide StableSort, Burn, Sum, NonNegative, UniqueActive;
    SwapKeepsOrder(t, i, j);
    SortedStays(t[i := t[j]][j := t[i]]);
    SwapShows(t, i, j);
  }

  /** A sort that puts one list in a given order and every other list in a stable one. */
  lemma {:induction false} SortsAs(s: seq<Active>, order: seq<Active>) returns (f: Sorter)
    requires InOrder(order, s)
    ensures Sorts(f) && f(s) == order
  {
    StableSortSorts();
    f := x => if x == s then order else StableSort(x);
  }

  lemma {:induction false} ShowsInRows(s: seq<Active>, others: seq<Active>, usage: int)
    requires multiset(others) == multiset(s) && usage >= 0
    requires multiset(Burn(StableSort(s), usage).0) != multiset(Burn(StableSort(others), usage).0)
    ensures !RowOrderHidden(s)
  {
    hide StableSort, Burn;
  }

  lemma {:induction false} ShowsInSorts(s: seq<Active>, f: Sorter, g: Sorter, usage: int)
    requires Sorts(f) && Sorts(g) && usage >= 0
    requires multiset(Burn(f(s), usage).0) != multiset(Burn(g(s), usage).0)
    ensures !SortHidden(s)
  {
  }

  lemma {:induction false} RowOrderShows(s: seq<Active>)
    requires UniqueActive(s) && NonNegative(s) && !NoCreditTies(s)
    ensures !RowOrderHidden(s) && !SortHidden(s)
  {
    var i, j := TieIn(s);
    SortedSwapShows(s, i, j);
    StableSortSorts();
    hide StableSort, Burn, Sum, NonNegative, UniqueActive, NoCreditTies, Sorts, RowOrderHidden, SortHidden;
    var t := StableSort(s);
    var swapped, usage := t[i := t[j]][j := t[i]], Sum(t[..i + 1]);
    var other := SortsAs(s, swapped);
    ShowsInRows(s, swapped, usage);
    ShowsInSorts(s, StableSort, other, usage);
  }

  /** What a period's burning leaves is the same for every order of the rows, and for every
      sort, at every usage, if and only if no two grants with credit left tie. */
  lemma {:induction false} OrderHiddenIffNoTies(s: seq<Active>)
    requires UniqueActive(s) && NonNegative(s)
    ensures RowOrderHidden(s) <==> NoCreditTies(s)
    ensures SortHidden(s) <==> NoCreditTies(s)
  {
    if NoCreditTies(s) {
      forall rows, others, usage: int | multiset(rows) == multiset(s) && multiset(others) == multiset(s) && usage >= 0
        ensures multiset(Burn(StableSort(rows), usage).0) == multiset(Burn(StableSort(others), usage).0)
      {
        StableSortMeets(rows);
        StableSortMeets(others);
        OrdersAgree(s, StableSort(rows), StableSort(others), usage);
      }
      forall f: Sorter, g: Sorter, usage: int | Sorts(f) && Sorts(g) && usage >= 0
        ensures multiset(Burn(f(s), usage).0) == multiset(Burn(g(s), usage).0)
      {
        OrdersAgree(s, f(s), g(s), usage);
      }
    } else {
      RowOrderShows(s);
    }
  }

  /** The same for the grants in play in any period of any run. */
  lemma {:induction false} PeriodOrderHidden(inp: Inputs, st: State, p: Period, first: bool)
    requires WellFormed(inp) && Sound(inp.grants, st)
    ensures var ready := Open(inp, st, p, first).active;
            (RowOrderHidden(ready) <==> NoCreditTies(ready)) && (SortHidden(ready) <==> NoCreditTies(ready))
  {
    var ready := Open(inp, st, p, first);
    OpenKeepsSound(inp, st, p, first);
    forall i | 0 <= i < |ready.active|
      ensures ready.active[i].remaining >= 0
    {
      assert ready.active[i] in ready.active;
    }
    OrderHiddenIffNoTies(ready.active);
  }

  // ---- A tie that decides a balance ----

  /** Two whole grants entering play together. */
  function Pair(g: Grant, h: Grant): seq<Active> {
    [Active(g, g.amount), Active(h, h.amount)]
  }

  lemma {:induction false} PairAdmitted(g: Grant, h: Grant, p: Period)
    requires g.id != h.id && p.from <= g.effectiveAt < p.to && p.from <= h.effectiveAt < p.to
    ensures Admit([g, h], {}, p, true) == (Pair(g, h), {g.id, h.id})
  {
    assert [g][..0] == [] && Admit([], {}, p, true) == ([], {});
    assert [g][|[g]| - 1] == g && {} + {g.id} == {g.id} && [] + [Active(g, g.amount)] == [Active(g, g.amount)];
    assert Admit([g], {}, p, true) == ([Active(g, g.amount)], {g.id});
    assert [g, h][..1] == [g] && [g, h][|[g, h]| - 1] == h;
    assert {g.id} + {h.id} == {g.id, h.id};
    assert [Active(g, g.amount)] + [Active(h, h.amount)] == Pair(g, h);
  }

  lemma {:induction false} PairPruned(g: Grant, h: Grant, at: Time)
    requires !Expired(g, at) && !Expired(h, at)
    ensures Prune(Pair(g, h), at) == Pair(g, h)
  {
    var s := Pair(g, h);
    assert s[..1] == [s[0]] && [s[0]][..0] == [];
    assert Prune([], at) == [];
    assert Prune([s[0]], at) == [s[0]];
  }

  lemma {:induction false} PairSpent(g: Grant, h: Grant)
    requires g.amount == h.amount > 0
    ensures Burn(Pair(g, h), g.amount) == ([Active(g, 0), Active(h, h.amount)], 0)
  {
    assert Pair(g, h)[1..] == [Active(h, h.amount)];
    assert [Active(g, 0)] + [Active(h, h.amount)] == [Active(g, 0), Active(h, h.amount)];
  }

  /** What is carried over when one of two equal grants is burned away. */
  lemma {:induction false} PairCarried(g: Grant, h: Grant, to: Time)
    requires h.amount > 0 && h.rolloverMax.None?
    ensures Roll([Active(g, 0), Active(h, h.amount)], to) == if Expired(h, to) then [] else [Active(h, h.amount)]
  {
    var spent := [Active(g, 0), Active(h, h.amount)];
    assert spent[..1] == [spent[0]] && [spent[0]][..0] == [];
    assert Roll([], to) == [];
    assert Roll([spent[0]], to) == [];
    assert [] + [spent[1]] == [spent[1]] && Carry(spent[1], to) == if Expired(h, to) then None else Some(spent[1]);
  }

  /** Two tied grants of equal amount, spent by half in the period after which one expires. */
  predicate Tied(stays: Grant, goes: Grant, usage: Meter, ps: seq<Period>, t: Time) {
    && stays.id != goes.id && SameKey(stays, goes) && stays.amount == goes.amount > 0
    && stays.expiresAt.None? && stays.rolloverMax.None? && goes.rolloverMax.None?
    && Contiguous(ps) && |ps| == 2 && ps[0].from <= stays.effectiveAt < ps[0].to
    && goes.expiresAt == Some(ps[0].to)
    && usage(ps[0].from, ps[0].to) == stays.amount && usage(ps[1].from, t) == 0
  }

  lemma {:induction false} PairSorted(g: Grant, h: Grant)
    requires SameKey(g, h)
    ensures StableSort(Pair(g, h)) == Pair(g, h)
  {
  }

  lemma {:induction false} PairCloses(g: Grant, h: Grant, usage: Meter, p: Period)
    requires g.id != h.id && SameKey(g, h) && g.amount == h.amount > 0 && h.rolloverMax.None?
    requires p.from <= g.effectiveAt < p.to && usage(p.from, p.to) == g.amount
    requires !Expired(g, p.from) && !Expired(h, p.from)
    ensures Close(Inputs([g, h], usage, StableSort), FRESH, p, true)
            == State(if Expired(h, p.to) then [] else [Active(h, h.amount)], {g.id, h.id})
  {
    PairAdmitted(g, h, p);
    PairPruned(g, h, p.from);
    PairSorted(g, h);
    PairSpent(g, h);
    PairCarried(g, h, p.to);
    assert [] + Pair(g, h) == Pair(g, h);
    hide Admit, Prune, Burn, Roll, StableSort, Pair, Expired;
  }

  lemma {:induction false} NothingNew(grants: seq<Grant>, seen: set<Id>, p: Period)
    requires forall g :: g in grants ==> g.id in seen
    ensures Admit(grants, seen, p, false) == ([], seen)
  {
    if grants != [] {
      assert grants[|grants| - 1] in grants;
      NothingNew(grants[..|grants| - 1], seen, p);
    }
  }

  lemma {:induction false} OneLeft(g: Grant, at: Time)
    requires g.expiresAt.None?
    ensures Prune([Active(g, g.amount)], at) == [Active(g, g.amount)] && Prune([], at) == []
    ensures LiveSum([Active(g, g.amount)], at) == g.amount && LiveSum([], at) == 0
  {
  }

  lemma {:induction false} LeftUnspent(inp: Inputs, st: State, p: Period, t: Time, g: Grant)
    requires Sorts(inp.sort) && (forall h :: h in inp.grants ==> h.id in st.seen) && inp.usage(p.from, t) == 0
    requires g.expiresAt.None? && (st.active == [] || st.active == [Active(g, g.amount)])
    ensures AnswerIn(inp, st, p, false, t).balance == if st.active == [] then 0 else g.amount
  {
    hide Admit, Sorts, Prune, LiveSum;
    NothingNew(inp.grants, st.seen, p);
    OneLeft(g, p.from);
    OneLeft(g, t);
    SortsNone(inp);
    SortsOne(inp, Active(g, g.amount));
    assert st.active + [] == st.active;
    assert Open(inp, st, p, false) == st;
    assert inp.sort(st.active) == st.active;
    assert Spend(inp, st, p, false, t) == (st.active, 0);
  }

  lemma {:induction false} PairAnswers(g: Grant, h: Grant, stays: Grant, usage: Meter, ps: seq<Period>, t: Time)
    requires Contiguous(ps) && |ps| == 2 && usage(ps[1].from, t) == 0 && stays.expiresAt.None?
    requires var st := Close(Inputs([g, h], usage, StableSort), FRESH, ps[0], true);
             st.seen == {g.id, h.id} && (st.active == [] || st.active == [Active(stays, stays.amount)])
    ensures Periodic(Inputs([g, h], usage, StableSort), ps, t, None).0.balance
            == if Close(Inputs([g, h], usage, StableSort), FRESH, ps[0], true).active == [] then 0 else stays.amount
  {
    var inp := Inputs([g, h], usage, StableSort);
    var st := StateAt(inp, ps, 0, FRESH, 1);
    assert st == Close(inp, StateAt(inp, ps, 0, FRESH, 0), ps[0], true);
    StableSortSorts();
    LeftUnspent(inp, st, ps[1], t, stays);
    BeginsFresh(inp.grants, ps);
    hide Close, AnswerIn, StableSort, Sorts;
  }

  /** The rows of a tie in either order, with the sort `sort.Slice` is on two elements: listing
      the grant that stays first leaves nothing, listing it last leaves a whole grant. */
  lemma {:induction false} TieDecides(stays: Grant, goes: Grant, usage: Meter, ps: seq<Period>, t: Time)
    requires Tied(stays, goes, usage, ps, t)
    ensures Periodic(Inputs([stays, goes], usage, StableSort), ps, t, None).0.balance == 0
    ensures Periodic(Inputs([goes, stays], usage, StableSort), ps, t, None).0.balance == stays.amount
  {
    PairCloses(stays, goes, usage, ps[0]);
    PairCloses(goes, stays, usage, ps[0]);
    hide Close, Periodic, StableSort;
    PairAnswers(stays, goes, stays, usage, ps, t);
    PairAnswers(goes, stays, stays, usage, ps, t);
  }
}
