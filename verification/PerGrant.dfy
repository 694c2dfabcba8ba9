/** The balance told grant by grant: what each grant has left, without lists, marks or sorting. The
    full replay of `CalculateBalance` computes just this. */
module PerGrant {
  import opened Options
  import opened Calendar
  import opened Periods
  import opened Ledger
  import opened Sequences
  import opened Burning
  import opened Sorting
  import opened Stateless
  import opened Soundness
  import opened Dominance
  import opened Seeding
  import opened RowOrder
  import opened TieBreaking

  // ---- The reference ----

  /** The sum over all grants of something about each. */
  function Total(grants: seq<Grant>, of: Grant -> int): int {
    if grants == [] then 0 else Total(grants[..|grants| - 1], of) + of(grants[|grants| - 1])
  }

  /** `h` pays before `g`: a lower priority number, or the same and effective earlier. */
  predicate PaysBefore(h: Grant, g: Grant) {
    h.priority < g.priority || (h.priority == g.priority && h.effectiveAt < g.effectiveAt)
  }

  predicate GoneBy(g: Grant, at: Time) {
    g.expiresAt.Some? && g.expiresAt.value <= at
  }

  /** What a grant brings over the boundary at which period `j` starts: what period `j - 1` left of
      it, up to its cap; nothing if it has expired. */
  function Carried(inp: Inputs, ps: seq<Period>, j: nat, g: Grant): int
    requires j <= |ps|
    decreases j, 0
  {
    if j == 0 || GoneBy(g, ps[j - 1].to) then 0
    else
      var left := LeftAt(inp, ps, j - 1, ps[j - 1].to, g);
      if g.rolloverMax.Some? && g.rolloverMax.value < left then Max0(g.rolloverMax.value) else left
  }

  /** What a grant starts period `j` with: all of it in the period in which it takes effect, or in
      the first one if that was before it; otherwise what it brought over; nothing once expired. */
  function Opening(inp: Inputs, ps: seq<Period>, j: nat, g: Grant): int
    requires j < |ps|
    decreases j, 1
  {
    if GoneBy(g, ps[j].from) then 0
    else if ps[j].from <= g.effectiveAt < ps[j].to || (j == 0 && g.effectiveAt < ps[j].from) then g.amount
    else Carried(inp, ps, j, g)
  }

  /** What the grants that pay before `g` started period `j` with. */
  function Earlier(inp: Inputs, ps: seq<Period>, j: nat, g: Grant): Grant -> int
    requires j < |ps|
    decreases j, 2
  {
    (h: Grant) => if PaysBefore(h, g) then Opening(inp, ps, j, h) else 0
  }

  /** What is left of a grant at `at` in period `j`: it pays what the grants before it did not cover
      of the usage since the period's start. */
  function LeftAt(inp: Inputs, ps: seq<Period>, j: nat, at: Time, g: Grant): int
    requires j < |ps|
    decreases j, 3
  {
    Max0(Opening(inp, ps, j, g) - Max0(inp.usage(ps[j].from, at) - Total(inp.grants, Earlier(inp, ps, j, g))))
  }

  function CarriedBy(inp: Inputs, ps: seq<Period>, j: nat): Grant -> int
    requires j <= |ps|
  {
    (g: Grant) => Carried(inp, ps, j, g)
  }

  function OpeningOf(inp: Inputs, ps: seq<Period>, j: nat): Grant -> int
    requires j < |ps|
  {
    (g: Grant) => Opening(inp, ps, j, g)
  }

  /** What can still be spent at `at`. */
  function Spendable(inp: Inputs, ps: seq<Period>, j: nat, at: Time): Grant -> int
    requires j < |ps|
  {
    (g: Grant) => if GoneBy(g, at) then 0 else LeftAt(inp, ps, j, at, g)
  }

  /** The answer at `t`, inside the last of the periods. */
  function Told(inp: Inputs, ps: seq<Period>, t: Time): BalanceResult
    requires |ps| > 0
  {
    var last := |ps| - 1;
    var balance, used := Total(inp.grants, Spendable(inp, ps, last, t)), inp.usage(ps[last].from, t);
    var overage := if used <= 0 then used else Max0(used - Total(inp.grants, OpeningOf(inp, ps, last)));
    BalanceResult(balance > 0, balance, used, overage, Some(ps[last]), Some(ps[last].from))
  }

  /** The snapshot of the boundary at which period `j` starts: what each grant brings over it, and
      the sum of that. */
  ghost predicate Tells(snap: Snapshot, inp: Inputs, ps: seq<Period>, j: nat)
    requires 0 < j <= |ps|
  {
    && snap.asOf == ps[j - 1].to
    && snap.balance == Total(inp.grants, CarriedBy(inp, ps, j))
    && (forall s :: s in snap.perGrant <==>
          exists g :: g in inp.grants && s == GrantState(g.id, Carried(inp, ps, j, g)) && s.remaining > 0)
    && forall a, b :: 0 <= a < b < |snap.perGrant| ==> snap.perGrant[a].grantId != snap.perGrant[b].grantId
  }

  // ---- Sums over lists and over grants ----

  /** The same sum over the grants of a list. */
  function Over(s: seq<Active>, of: Grant -> int): int {
    if s == [] then 0 else Over(s[..|s| - 1], of) + of(s[|s| - 1].grant)
  }

  function GrantsOf(s: seq<Active>): (grants: seq<Grant>)
    ensures |grants| == |s| && forall i :: 0 <= i < |s| ==> grants[i] == s[i].grant
  {
    seq(|s|, i requires 0 <= i < |s| => s[i].grant)
  }

  lemma {:induction false} OverIsTotal(s: seq<Active>, of: Grant -> int)
    ensures Over(s, of) == Total(GrantsOf(s), of)
  {
    if s != [] {
      OverIsTotal(s[..|s| - 1], of);
      assert GrantsOf(s)[..|s| - 1] == GrantsOf(s[..|s| - 1]);
    }
  }

  lemma {:induction false} TotalAppend(a: seq<Grant>, b: seq<Grant>, of: Grant -> int)
    ensures Total(a + b, of) == Total(a, of) + Total(b, of)
  {
    if b == [] {
      assert a + b == a;
    } else {
      TotalAppend(a, b[..|b| - 1], of);
      assert (a + b)[..|a + b| - 1] == a + b[..|b| - 1];
    }
  }

  lemma {:induction false} TotalPluck(s: seq<Grant>, k: nat, of: Grant -> int)
    requires k < |s|
    ensures Total(s, of) == Total(s[..k] + s[k + 1..], of) + of(s[k])
  {
    TotalAppend(s[..k], s[k + 1..], of);
    TotalAppend(s[..k], [s[k]], of);
    TotalAppend(s[..k] + [s[k]], s[k + 1..], of);
    assert s == s[..k] + [s[k]] + s[k + 1..] && [s[k]][..0] == [];
  }

  lemma {:induction false} TotalPermutes(a: seq<Grant>, b: seq<Grant>, of: Grant -> int)
    requires multiset(a) == multiset(b)
    ensures Total(a, of) == Total(b, of)
  {
    if a == [] {
      SameSize(a, b);
    } else {
      var k := Match(a, b);
      TotalPermutes(a[..|a| - 1], b[..k] + b[k + 1..], of);
      TotalPluck(b, k, of);
    }
  }

  /** The grants that have something. */
  function Having(grants: seq<Grant>, has: Grant -> int): seq<Grant> {
    if grants == [] then []
    else
      var front, g := Having(grants[..|grants| - 1], has), grants[|grants| - 1];
      if has(g) > 0 then front + [g] else front
  }

  lemma {:induction false} HavingAre(grants: seq<Grant>, has: Grant -> int)
    ensures forall g :: g in Having(grants, has) <==> g in grants && has(g) > 0
    ensures NoRepeats(grants) ==> NoRepeats(Having(grants, has))
  {
    if grants != [] {
      var front, g := grants[..|grants| - 1], grants[|grants| - 1];
      HavingAre(front, has);
      assert forall h :: h in grants <==> h in front || h == g;
      if NoRepeats(grants) {
        assert g !in front;
      }
    }
  }

  lemma {:induction false} HavingTotal(grants: seq<Grant>, has: Grant -> int, of: Grant -> int)
    requires forall g :: g in grants && has(g) <= 0 ==> of(g) == 0
    ensures Total(Having(grants, has), of) == Total(grants, of)
  {
    if grants != [] {
      var front, g := grants[..|grants| - 1], grants[|grants| - 1];
      assert g in grants && forall h :: h in front ==> h in grants;
      HavingTotal(front, has, of);
      if has(g) > 0 {
        TotalAppend(Having(front, has), [g], of);
        TotalAppend([], [g], of);
        assert [] + [g] == [g];
      }
    }
  }

  /** The list holds the grants that have something, with what they have. */
  ghost predicate Shows(s: seq<Active>, grants: seq<Grant>, has: Grant -> int) {
    && UniqueActive(s)
    && forall x :: x in s <==> x.grant in grants && x.remaining == has(x.grant) && x.remaining > 0
  }

  lemma {:induction false} ShownGrants(s: seq<Active>, grants: seq<Grant>, has: Grant -> int)
    requires Shows(s, grants, has)
    ensures NoRepeats(GrantsOf(s))
    ensures forall g :: g in GrantsOf(s) <==> g in grants && has(g) > 0
  {
    forall g
      ensures g in GrantsOf(s) <==> g in grants && has(g) > 0
    {
      if g in GrantsOf(s) {
        var i :| 0 <= i < |s| && GrantsOf(s)[i] == g;
        assert s[i] in s;
      }
      if g in grants && has(g) > 0 {
        assert Active(g, has(g)) in s;
        var i :| 0 <= i < |s| && s[i] == Active(g, has(g));
        assert GrantsOf(s)[i] == g;
      }
    }
  }

  /** A sum over such a list is the sum over all grants, if the others count for nothing. */
  lemma {:induction false} OverShown(s: seq<Active>, grants: seq<Grant>, has: Grant -> int, of: Grant -> int)
    requires Shows(s, grants, has) && UniqueIds(grants)
    requires forall g :: g in grants && has(g) <= 0 ==> of(g) == 0
    ensures Over(s, of) == Total(grants, of)
  {
    OverIsTotal(s, of);
    ShownGrants(s, grants, has);
    HavingAre(grants, has);
    HavingTotal(grants, has, of);
    hide Shows, Over, Having, Total;
    assert NoRepeats(grants);
    SameElementsPermute(GrantsOf(s), Having(grants, has));
    TotalPermutes(GrantsOf(s), Having(grants, has), of);
  }

  lemma {:induction false} OverPermutes(s: seq<Active>, t: seq<Active>, of: Grant -> int)
    requires multiset(s) == multiset(t)
    ensures Over(s, of) == Over(t, of)
  {
    if s == [] {
      SameSize(s, t);
    } else {
      var k := Match(s, t);
      OverPermutes(s[..|s| - 1], t[..k] + t[k + 1..], of);
      OverIsTotal(t, of);
      OverIsTotal(t[..k] + t[k + 1..], of);
      TotalPluck(GrantsOf(t), k, of);
      assert GrantsOf(t)[..k] + GrantsOf(t)[k + 1..] == GrantsOf(t[..k] + t[k + 1..]);
    }
  }

  // ---- The remainders of a list as such sums ----

  lemma {:induction false} SumIsOver(s: seq<Active>, has: Grant -> int)
    requires forall x :: x in s ==> x.remaining == has(x.grant)
    ensures Sum(s) == Over(s, has)
  {
    if s != [] {
      assert s[|s| - 1] in s;
      SumIsOver(s[..|s| - 1], has);
    }
  }

  lemma {:induction false} AheadIsOver(s: seq<Active>, g: Grant, of: Grant -> int)
    requires forall x :: x in s ==> of(x.grant) == if PaysBefore(x.grant, g) then x.remaining else 0
    ensures Ahead(s, g) == Over(s, of)
  {
    if s != [] {
      assert s[|s| - 1] in s;
      AheadIsOver(s[..|s| - 1], g, of);
    }
  }

  lemma {:induction false} LiveIsOver(s: seq<Active>, at: Time, of: Grant -> int)
    requires forall x :: x in s ==> of(x.grant) == if GoneBy(x.grant, at) then 0 else x.remaining
    ensures LiveSum(s, at) == Over(s, of)
  {
    if s != [] {
      assert s[|s| - 1] in s;
      LiveIsOver(s[..|s| - 1], at, of);
    }
  }

  // ---- One period ----

  /** No two grants burn at the same rank, and the periods follow one another. */
  ghost predicate Untied(inp: Inputs, ps: seq<Period>) {
    WellFormed(inp) && KeysApart(inp.grants) && Contiguous(ps)
  }

  lemma {:induction false} OpeningIs(inp: Inputs, ps: seq<Period>, j: nat, g: Grant)
    requires j < |ps|
    ensures Opening(inp, ps, j, g)
            == if Expired(g, ps[j].from) then 0 else if Due(g, ps[j], j == 0) then g.amount else Carried(inp, ps, j, g)
  {
  }

  /** Which grants have been marked when period `j` opens. */
  lemma {:induction false} MarkedBy(inp: Inputs, ps: seq<Period>, j: nat, g: Grant)
    requires WellFormed(inp) && Contiguous(ps) && j < |ps| && g in inp.grants
    ensures Sound(inp.grants, StateAt(inp, ps, 0, FRESH, j))
    ensures Due(g, ps[j], j == 0) ==> g.id !in StateAt(inp, ps, 0, FRESH, j).seen
  {
    StateAtSound(inp, ps, 0, FRESH, j);
    if j > 0 {
      SeenIsBefore(inp, ps, 0, FRESH, j);
      assert ps[j - 1].to == ps[j].from;
      if ps[j].from <= g.effectiveAt {
        UnseenLater(inp.grants, StateAt(inp, ps, 0, FRESH, j).seen, ps[j], g);
      }
    }
  }

  lemma {:induction false} Opens(inp: Inputs, ps: seq<Period>, j: nat)
    requires WellFormed(inp) && Contiguous(ps) && j < |ps|
    requires Shows(StateAt(inp, ps, 0, FRESH, j).active, inp.grants, CarriedBy(inp, ps, j))
    ensures Shows(Open(inp, StateAt(inp, ps, 0, FRESH, j), ps[j], j == 0).active, inp.grants, OpeningOf(inp, ps, j))
  {
    var st := StateAt(inp, ps, 0, FRESH, j);
    var ready := Open(inp, st, ps[j], j == 0).active;
    StateAtSound(inp, ps, 0, FRESH, j);
    OpenKeepsSound(inp, st, ps[j], j == 0);
    hide Open, StateAt, Carried, Opening, Contiguous;
    forall x
      ensures x in ready <==> x.grant in inp.grants && x.remaining == Opening(inp, ps, j, x.grant) && x.remaining > 0
    {
      OpenHolds(inp, st, ps[j], j == 0, x);
      OpeningIs(inp, ps, j, x.grant);
      if x.grant in inp.grants {
        MarkedBy(inp, ps, j, x.grant);
        var k :| 0 <= k < |inp.grants| && inp.grants[k] == x.grant;
      }
    }
  }

  /** The sorted list of what is in play, with the facts burning it needs. */
  ghost predicate Readied(s: seq<Active>, inp: Inputs, ps: seq<Period>, j: nat)
    requires j < |ps|
  {
    Ordered(s) && NonNegative(s) && DistinctKeys(s) && Shows(s, inp.grants, OpeningOf(inp, ps, j))
  }

  lemma {:induction false} ShowsPermuted(s: seq<Active>, t: seq<Active>, grants: seq<Grant>, has: Grant -> int)
    requires Shows(s, grants, has) && multiset(s) == multiset(t)
    ensures Shows(t, grants, has)
  {
    UniquePermutes(s, t);
    assert forall x :: x in s <==> x in multiset(s);
    assert forall x :: x in t <==> x in multiset(t);
  }

  lemma {:induction false} Readies(inp: Inputs, ps: seq<Period>, j: nat)
    requires Untied(inp, ps) && j < |ps|
    requires Shows(StateAt(inp, ps, 0, FRESH, j).active, inp.grants, CarriedBy(inp, ps, j))
    ensures Readied(inp.sort(Open(inp, StateAt(inp, ps, 0, FRESH, j), ps[j], j == 0).active), inp, ps, j)
  {
    var st := StateAt(inp, ps, 0, FRESH, j);
    var ready := Open(inp, st, ps[j], j == 0);
    Opens(inp, ps, j);
    StateAtSound(inp, ps, 0, FRESH, j);
    SpendKeepsSound(inp, st, ps[j], j == 0, ps[j].from);
    SoundKeys(inp.grants, State(inp.sort(ready.active), ready.seen));
    hide Open, StateAt, Opening, Carried, Contiguous, Sound, Shows, NonNegative, DistinctKeys;
    ShowsPermuted(ready.active, inp.sort(ready.active), inp.grants, OpeningOf(inp, ps, j));
  }

  lemma {:induction false} CarriedNonNegative(inp: Inputs, ps: seq<Period>, j: nat, g: Grant)
    requires j <= |ps|
    ensures Carried(inp, ps, j, g) >= 0
  {
    hide Opening, Earlier, Total;
  }

  lemma {:induction false} OpeningNonNegative(inp: Inputs, ps: seq<Period>, j: nat, g: Grant)
    requires j < |ps| && Amounts(inp.grants) && g in inp.grants
    ensures Opening(inp, ps, j, g) >= 0 && Carried(inp, ps, j, g) >= 0
  {
    if j > 0 {
      CarriedNonNegative(inp, ps, j, g);
    }
    var k :| 0 <= k < |inp.grants| && inp.grants[k] == g;
  }

  /** The credit ahead of a grant in the list is that of the grants that pay before it. */
  lemma {:induction false} AheadIsEarlier(s: seq<Active>, inp: Inputs, ps: seq<Period>, j: nat, g: Grant)
    requires WellFormed(inp) && j < |ps| && Readied(s, inp, ps, j)
    ensures Ahead(s, g) == Total(inp.grants, Earlier(inp, ps, j, g))
  {
    forall h | h in inp.grants && Opening(inp, ps, j, h) <= 0
      ensures Earlier(inp, ps, j, g)(h) == 0
    {
      OpeningNonNegative(inp, ps, j, h);
    }
    AheadIsOver(s, g, Earlier(inp, ps, j, g));
    hide Opening, Ahead, Over, Total;
    OverShown(s, inp.grants, OpeningOf(inp, ps, j), Earlier(inp, ps, j, g));
  }

  lemma {:induction false} AheadNonNegative(s: seq<Active>, g: Grant)
    requires NonNegative(s)
    ensures Ahead(s, g) >= 0
  {
    if s != [] {
      AheadNonNegative(s[..|s| - 1], g);
    }
  }

  lemma {:induction false} BurnsTo(s: seq<Active>, inp: Inputs, ps: seq<Period>, j: nat, at: Time, i: nat)
    requires WellFormed(inp) && j < |ps| && Readied(s, inp, ps, j) && i < |s|
    ensures var r := Burn(s, inp.usage(ps[j].from, at)).0;
            |r| == |s| && r[i] == Active(s[i].grant, LeftAt(inp, ps, j, at, s[i].grant))
  {
    var usage := inp.usage(ps[j].from, at);
    AheadIsEarlier(s, inp, ps, j, s[i].grant);
    assert s[i] in s;
    hide Opening, Total, Earlier, WellFormed;
    if usage >= 0 {
      BurnedIs(s, usage, i);
    } else {
      AheadNonNegative(s, s[i].grant);
    }
  }

  lemma {:induction false} CarriesTo(inp: Inputs, ps: seq<Period>, j: nat, g: Grant)
    requires j < |ps|
    ensures var left := Active(g, LeftAt(inp, ps, j, ps[j].to, g));
            Carry(left, ps[j].to)
            == if Carried(inp, ps, j + 1, g) > 0 then Some(Active(g, Carried(inp, ps, j + 1, g))) else None
  {
    hide Opening, Earlier, Total;
  }

  lemma {:induction false} CarriedWasThere(inp: Inputs, ps: seq<Period>, j: nat, g: Grant)
    requires j < |ps| && Carried(inp, ps, j + 1, g) > 0
    ensures Opening(inp, ps, j, g) > 0
  {
    hide Opening, Earlier, Total;
  }

  /** What is in play after the boundary is what the grants carry over it. */
  lemma {:induction false} Rolls(s: seq<Active>, inp: Inputs, ps: seq<Period>, j: nat)
    requires WellFormed(inp) && j < |ps| && Readied(s, inp, ps, j)
    ensures Shows(Roll(Burn(s, inp.usage(ps[j].from, ps[j].to)).0, ps[j].to), inp.grants, CarriedBy(inp, ps, j + 1))
  {
    var to := ps[j].to;
    var r := Burn(s, inp.usage(ps[j].from, to)).0;
    BurnKeepsGrants(s, inp.usage(ps[j].from, to));
    RollFacts(r, to);
    hide Burn, Roll, Carried, LeftAt, Opening, WellFormed, Carry;
    forall i | 0 <= i < |s|
      ensures r[i] == Active(s[i].grant, LeftAt(inp, ps, j, to, s[i].grant))
    {
      BurnsTo(s, inp, ps, j, to, i);
    }
    forall x
      ensures x in Roll(r, to)
              <==> x.grant in inp.grants && x.remaining == Carried(inp, ps, j + 1, x.grant) && x.remaining > 0
    {
      CarriesTo(inp, ps, j, x.grant);
      if x in Roll(r, to) {
        var a :| a in r && Carry(a, to) == Some(x);
        var i :| 0 <= i < |r| && r[i] == a;
        CarriesTo(inp, ps, j, a.grant);
        assert s[i] in s;
      }
      if x.grant in inp.grants && x.remaining == Carried(inp, ps, j + 1, x.grant) && x.remaining > 0 {
        CarriedWasThere(inp, ps, j, x.grant);
        var i :| 0 <= i < |s| && s[i] == Active(x.grant, Opening(inp, ps, j, x.grant));
        assert r[i] in r;
      }
    }
  }

  // ---- Whole runs ----

  lemma {:induction false} ShowsNothing(inp: Inputs, ps: seq<Period>)
    ensures Shows([], inp.grants, CarriedBy(inp, ps, 0))
  {
  }

  /** Entering each period, the fold holds the grants that carry something, with what they carry. */
  lemma {:induction false} StateTells(inp: Inputs, ps: seq<Period>, j: nat)
    requires Untied(inp, ps) && j <= |ps|
    ensures Shows(StateAt(inp, ps, 0, FRESH, j).active, inp.grants, CarriedBy(inp, ps, j))
  {
    hide Shows, Open, Burn, Roll, CarriedBy, Contiguous;
    if j == 0 {
      ShowsNothing(inp, ps);
    } else {
      StateTells(inp, ps, j - 1);
      Readies(inp, ps, j - 1);
      hide Readied;
      Rolls(inp.sort(Open(inp, StateAt(inp, ps, 0, FRESH, j - 1), ps[j - 1], j - 1 == 0).active), inp, ps, j - 1);
    }
  }

  lemma {:induction false} NothingSpendable(inp: Inputs, ps: seq<Period>, j: nat, at: Time)
    requires j < |ps|
    ensures forall g :: g in inp.grants && OpeningOf(inp, ps, j)(g) <= 0 ==> Spendable(inp, ps, j, at)(g) == 0
  {
    hide Opening, Earlier, Total;
  }

  lemma {:induction false} SameGrantsOver(s: seq<Active>, r: seq<Active>, of: Grant -> int)
    requires |s| == |r| && forall i :: 0 <= i < |s| ==> s[i].grant == r[i].grant
    ensures Over(s, of) == Over(r, of)
  {
    if s != [] {
      SameGrantsOver(s[..|s| - 1], r[..|r| - 1], of);
    }
  }

  lemma {:induction false} LeavesSpendable(s: seq<Active>, inp: Inputs, ps: seq<Period>, j: nat, at: Time)
    requires WellFormed(inp) && j < |ps| && Readied(s, inp, ps, j)
    ensures LiveSum(Burn(s, inp.usage(ps[j].from, at)).0, at) == Total(inp.grants, Spendable(inp, ps, j, at))
  {
    var usage := inp.usage(ps[j].from, at);
    var r := Burn(s, usage).0;
    BurnKeepsGrants(s, usage);
    hide Burn, LeftAt, Opening, LiveSum, Total, Over;
    forall i | 0 <= i < |s|
      ensures r[i] == Active(s[i].grant, LeftAt(inp, ps, j, at, s[i].grant))
    {
      BurnsTo(s, inp, ps, j, at, i);
    }
    assert forall x :: x in r ==> x.remaining == LeftAt(inp, ps, j, at, x.grant);
    LiveIsOver(r, at, Spendable(inp, ps, j, at));
    SameGrantsOver(s, r, Spendable(inp, ps, j, at));
    NothingSpendable(inp, ps, j, at);
    hide Spendable, OpeningOf, Shows, NonNegative;
    OverShown(s, inp.grants, OpeningOf(inp, ps, j), Spendable(inp, ps, j, at));
  }

  lemma {:induction false} OpensWith(s: seq<Active>, inp: Inputs, ps: seq<Period>, j: nat)
    requires WellFormed(inp) && j < |ps| && Readied(s, inp, ps, j)
    ensures Sum(s) == Total(inp.grants, OpeningOf(inp, ps, j)) && NonNegative(s)
  {
    hide Opening, Sum, Total, Over;
    SumIsOver(s, OpeningOf(inp, ps, j));
    forall g | g in inp.grants && OpeningOf(inp, ps, j)(g) <= 0
      ensures OpeningOf(inp, ps, j)(g) == 0
    {
      OpeningNonNegative(inp, ps, j, g);
    }
    OverShown(s, inp.grants, OpeningOf(inp, ps, j), OpeningOf(inp, ps, j));
  }

  /** The burned list of the current period sums up to what is told. */
  lemma {:induction false} SpendsTo(s: seq<Active>, inp: Inputs, ps: seq<Period>, t: Time)
    requires WellFormed(inp) && |ps| > 0 && Readied(s, inp, ps, |ps| - 1)
    ensures var last := |ps| - 1; var (r, overage) := Burn(s, inp.usage(ps[last].from, t));
            LiveSum(r, t) == Told(inp, ps, t).balance && overage == Told(inp, ps, t).overage
  {
    var last := |ps| - 1;
    var usage := inp.usage(ps[last].from, t);
    LeavesSpendable(s, inp, ps, last, t);
    OpensWith(s, inp, ps, last);
    hide Readied, LiveSum, Total, Sum, WellFormed;
    if usage >= 0 {
      BurnOverage(s, usage);
    }
  }

  lemma {:induction false} AnswerTells(inp: Inputs, ps: seq<Period>, t: Time)
    requires Untied(inp, ps) && |ps| > 0
    ensures Answer(inp, ps, 0, FRESH, t) == Told(inp, ps, t)
  {
    var last := |ps| - 1;
    var st := StateAt(inp, ps, 0, FRESH, last);
    StateTells(inp, ps, last);
    Readies(inp, ps, last);
    hide StateAt, Open, Burn, LiveSum, Shows, Readied, Contiguous, Total;
    SpendsTo(inp.sort(Open(inp, st, ps[last], last == 0).active), inp, ps, t);
  }

  lemma {:induction false} SnapshotTells(s: seq<Active>, inp: Inputs, ps: seq<Period>, j: nat)
    requires WellFormed(inp) && 0 < j <= |ps| && Shows(s, inp.grants, CarriedBy(inp, ps, j))
    ensures Tells(SnapshotOf(s, ps[j - 1].to), inp, ps, j)
  {
    var states := StatesOf(s);
    hide Carried, Sum, Total, Over;
    SumIsOver(s, CarriedBy(inp, ps, j));
    forall g | g in inp.grants ensures Carried(inp, ps, j, g) >= 0 { CarriedNonNegative(inp, ps, j, g); }
    OverShown(s, inp.grants, CarriedBy(inp, ps, j), CarriedBy(inp, ps, j));
    forall x
      ensures x in states <==>
              exists g :: g in inp.grants && x == GrantState(g.id, Carried(inp, ps, j, g)) && x.remaining > 0
    {
      if x in states {
        var i :| 0 <= i < |states| && states[i] == x;
        assert s[i] in s;
        assert s[i].grant in inp.grants && x == GrantState(s[i].grant.id, Carried(inp, ps, j, s[i].grant));
      }
      if g :| g in inp.grants && x == GrantState(g.id, Carried(inp, ps, j, g)) && x.remaining > 0 {
        assert Active(g, x.remaining) in s;
        var i :| 0 <= i < |s| && s[i] == Active(g, x.remaining);
        assert states[i] == x;
      }
    }
  }

  /** The full replay answers as told, and its snapshots tell what the grants carry over each
      boundary, whatever the order of the grants and the sort. */
  lemma {:induction false} ReplayTells(inp: Inputs, ps: seq<Period>, t: Time)
    requires Untied(inp, ps) && |ps| > 0
    ensures var (answer, snaps) := Periodic(inp, ps, t, None);
            && answer == Told(inp, ps, t) && |snaps| == |ps| - 1
            && forall j :: 0 <= j < |snaps| ==> Tells(snaps[j], inp, ps, j + 1)
  {
    BeginsFresh(inp.grants, ps);
    AnswerTells(inp, ps, t);
    hide Told, Tells, Answer, StateAt, Shows, SnapshotOf, Contiguous;
    var last := |ps| - 1;
    assert Periodic(inp, ps, t, None).1 == Captured(inp, ps, 0, FRESH, last);
    hide Periodic, Captured;
    forall j | 0 <= j < last
      ensures Tells(Captured(inp, ps, 0, FRESH, last)[j], inp, ps, j + 1)
    {
      CapturedAt(inp, ps, 0, FRESH, j + 1, last);
      StateTells(inp, ps, j + 1);
      SnapshotTells(StateAt(inp, ps, 0, FRESH, j + 1).active, inp, ps, j + 1);
    }
  }
}
