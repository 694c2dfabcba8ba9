/** Every admitted credit is accounted for: spent, expired, cut by the cap, or still there. */
module Conservation {
  import opened Calendar
  import opened Periods
  import opened Ledger
  import opened Burning
  import opened Soundness

  // ---- Admission, exactly once ----

  /** The grants effective before `t`, at their full amounts. */
  function EffectiveBefore(grants: seq<Grant>, t: Time): seq<Active> {
    if grants == [] then []
    else
      var rest, g := EffectiveBefore(grants[..|grants| - 1], t), grants[|grants| - 1];
      if g.effectiveAt < t then rest + [Active(g, g.amount)] else rest
  }

  /** Everything a full replay admitted in its first `j` periods. */
  function AdmissionLog(inp: Inputs, periods: seq<Period>, j: nat): seq<Active>
    requires j <= |periods|
  {
    if j == 0 then []
    else AdmissionLog(inp, periods, j - 1)
         + Admit(inp.grants, StateAt(inp, periods, 0, FRESH, j - 1).seen, periods[j - 1], j == 1).0
  }

  /** What is new in a window: the grants effective in it and in no earlier one. */
  lemma {:induction false} AdmitsWindow(all: seq<Grant>, n: nat, p: Period)
    requires UniqueIds(all) && n <= |all| && p.from < p.to
    ensures multiset(EffectiveBefore(all[..n], p.from)) + multiset(Admit(all[..n], IdsBefore(all, p.from), p, false).0)
            == multiset(EffectiveBefore(all[..n], p.to))
  {
    if n > 0 {
      AdmitsWindow(all, n - 1, p);
      var front, g := all[..n - 1], all[n - 1];
      assert all[..n][..n - 1] == front;
      AdmitFacts(front, IdsBefore(all, p.from), p, false);
      assert g in all;
      assert g.id in IdsBefore(all, p.from) <==> g.effectiveAt < p.from;
      assert g.id !in IdsDue(front, p, false);
    }
  }

  lemma {:induction false} AdmitsFirst(all: seq<Grant>, n: nat, p: Period)
    requires UniqueIds(all) && n <= |all| && p.from < p.to
    ensures Admit(all[..n], {}, p, true).0 == EffectiveBefore(all[..n], p.to)
  {
    if n > 0 {
      AdmitsFirst(all, n - 1, p);
      assert all[..n][..n - 1] == all[..n - 1];
      AdmitFacts(all[..n - 1], {}, p, true);
      assert all[n - 1].id !in IdsDue(all[..n - 1], p, true);
    }
  }

  lemma {:induction false} AdmitsNext(inp: Inputs, periods: seq<Period>, j: nat)
    requires WellFormed(inp) && Contiguous(periods) && 1 < j <= |periods|
    requires multiset(AdmissionLog(inp, periods, j - 1)) == multiset(EffectiveBefore(inp.grants, periods[j - 2].to))
    ensures multiset(AdmissionLog(inp, periods, j)) == multiset(EffectiveBefore(inp.grants, periods[j - 1].to))
  {
    SeenIsBefore(inp, periods, 0, FRESH, j - 1);
    assert periods[j - 2].to == periods[j - 1].from;
    hide Admit, EffectiveBefore, StateAt, IdsBefore, Contiguous;
    AdmitsWindow(inp.grants, |inp.grants|, periods[j - 1]);
    assert inp.grants[..|inp.grants|] == inp.grants;
  }

  /** A replay admits every grant effective before the end of its last period, each
      exactly once and at its full amount, and no other. */
  lemma {:induction false} AdmittedExactlyOnce(inp: Inputs, periods: seq<Period>, j: nat)
    requires WellFormed(inp) && Contiguous(periods) && 0 < j <= |periods|
    ensures multiset(AdmissionLog(inp, periods, j)) == multiset(EffectiveBefore(inp.grants, periods[j - 1].to))
    decreases j
  {
    if j == 1 {
      AdmitsFirst(inp.grants, |inp.grants|, periods[0]);
      assert inp.grants[..|inp.grants|] == inp.grants;
      hide Admit, EffectiveBefore;
      assert AdmissionLog(inp, periods, 0) == [];
    } else {
      hide *;
      AdmittedExactlyOnce(inp, periods, j - 1);
      AdmitsNext(inp, periods, j);
    }
  }

  // ---- Losses ----

  /** Credit on grants expired by `at`. */
  function ExpiredSum(s: seq<Active>, at: Time): int {
    if s == [] then 0
    else ExpiredSum(s[..|s| - 1], at) + (if Expired(s[|s| - 1].grant, at) then s[|s| - 1].remaining else 0)
  }

  /** Credit above the rollover cap on grants not expired by `to`. */
  function CutSum(s: seq<Active>, to: Time): int {
    if s == [] then 0
    else
      var a := s[|s| - 1];
      CutSum(s[..|s| - 1], to)
      + (if Expired(a.grant, to) || a.grant.rolloverMax.None? then 0
         else Max0(a.remaining - Max0(a.grant.rolloverMax.value)))
  }

  lemma {:induction false} LiveOrExpired(s: seq<Active>, at: Time)
    ensures Sum(s) == LiveSum(s, at) + ExpiredSum(s, at)
    ensures Sum(Prune(s, at)) == LiveSum(s, at)
  {
    if s != [] {
      LiveOrExpired(s[..|s| - 1], at);
    }
  }

  lemma {:induction false} CarryLoses(a: Active, to: Time)
    requires a.remaining >= 0
    ensures (if Carry(a, to).Some? then Carry(a, to).value.remaining else 0)
            == a.remaining - (if Expired(a.grant, to) then a.remaining else 0)
               - (if Expired(a.grant, to) || a.grant.rolloverMax.None? then 0
                  else Max0(a.remaining - Max0(a.grant.rolloverMax.value)))
  {
  }

  lemma {:induction false} RollsLast(s: seq<Active>, to: Time)
    requires s != []
    ensures var front, carried := s[..|s| - 1], Carry(s[|s| - 1], to);
            Sum(Roll(s, to)) == Sum(Roll(front, to)) + if carried.Some? then carried.value.remaining else 0
  {
    if Carry(s[|s| - 1], to).Some? {
      SumPush(Roll(s[..|s| - 1], to), Carry(s[|s| - 1], to).value);
    }
    hide Carry;
  }

  lemma {:induction false} LosesLast(s: seq<Active>, to: Time)
    requires s != []
    ensures var front, a := s[..|s| - 1], s[|s| - 1];
            && ExpiredSum(s, to) == ExpiredSum(front, to) + (if Expired(a.grant, to) then a.remaining else 0)
            && CutSum(s, to)
               == CutSum(front, to)
                  + (if Expired(a.grant, to) || a.grant.rolloverMax.None? then 0
                     else Max0(a.remaining - Max0(a.grant.rolloverMax.value)))
            && Sum(s) == Sum(front) + a.remaining
  {
  }

  lemma {:induction false} RollLoses(s: seq<Active>, to: Time)
    requires NonNegative(s)
    ensures Sum(Roll(s, to)) == Sum(s) - ExpiredSum(s, to) - CutSum(s, to)
  {
    if s != [] {
      RollLoses(s[..|s| - 1], to);
      CarryLoses(s[|s| - 1], to);
      hide *;
      RollsLast(s, to);
      LosesLast(s, to);
    }
  }

  lemma {:induction false} LossesNonNegative(s: seq<Active>, at: Time)
    requires NonNegative(s)
    ensures 0 <= ExpiredSum(s, at) && 0 <= CutSum(s, at) && 0 <= LiveSum(s, at)
  {
    if s != [] {
      LossesNonNegative(s[..|s| - 1], at);
    }
  }

  // ---- The books ----

  /** Credit that has gone in, and the three ways out of play. */
  datatype Books = Books(admitted: int, spent: int, expired: int, cut: int)

  /** What opening a period brings into play, and what it finds expired. */
  function AtOpening(inp: Inputs, books: Books, st: State, p: Period, first: bool): Books {
    var admitted := Admit(inp.grants, st.seen, p, first).0;
    books.(admitted := books.admitted + Sum(admitted),
           expired := books.expired + ExpiredSum(st.active + admitted, p.from))
  }

  /** What closing a period takes out of play. */
  function AtBoundary(inp: Inputs, books: Books, st: State, p: Period, first: bool): Books {
    var (active, overage) := Spend(inp, st, p, first, p.to);
    books.(spent := books.spent + inp.usage(p.from, p.to) - overage,
           expired := books.expired + ExpiredSum(active, p.to),
           cut := books.cut + CutSum(active, p.to))
  }

  /** Books once the first `j` periods are closed. */
  function Closed(inp: Inputs, periods: seq<Period>, j: nat): Books
    requires j <= |periods|
    decreases j, 0
  {
    if j == 0 then Books(0, 0, 0, 0)
    else
      AtBoundary(inp, Opened(inp, periods, j - 1), StateAt(inp, periods, 0, FRESH, j - 1), periods[j - 1], j - 1 == 0)
  }

  /** Books up to and including the opening of period `j`. */
  function Opened(inp: Inputs, periods: seq<Period>, j: nat): Books
    requires j < |periods|
    decreases j, 1
  {
    AtOpening(inp, Closed(inp, periods, j), StateAt(inp, periods, 0, FRESH, j), periods[j], j == 0)
  }

  function Outstanding(books: Books): int {
    books.admitted - books.spent - books.expired - books.cut
  }

  lemma {:induction false} OpeningBalances(inp: Inputs, books: Books, st: State, p: Period, first: bool)
    requires Sum(st.active) == Outstanding(books)
    ensures Sum(Open(inp, st, p, first).active) == Outstanding(AtOpening(inp, books, st, p, first))
  {
    var admitted := Admit(inp.grants, st.seen, p, first).0;
    SumAppend(st.active, admitted);
    LiveOrExpired(st.active + admitted, p.from);
  }

  lemma {:induction false} SpendingBalances(inp: Inputs, st: State, p: Period, first: bool, upTo: Time)
    requires WellFormed(inp) && Sound(inp.grants, st)
    ensures var (active, overage) := Spend(inp, st, p, first, upTo);
            && Sum(active) == Sum(Open(inp, st, p, first).active) - (inp.usage(p.from, upTo) - overage)
            && NonNegative(active)
  {
    var ready := Open(inp, st, p, first);
    SpendKeepsSound(inp, st, p, first, upTo);
    SumPermutes(ready.active, inp.sort(ready.active));
    BurnConserves(inp.sort(ready.active), inp.usage(p.from, upTo));
    BurnBounds(inp.sort(ready.active), inp.usage(p.from, upTo));
  }

  lemma {:induction false} ClosingBalances(inp: Inputs, books: Books, st: State, p: Period, first: bool)
    requires WellFormed(inp) && Sound(inp.grants, st)
    requires Sum(Open(inp, st, p, first).active) == Outstanding(books)
    ensures Sum(Close(inp, st, p, first).active) == Outstanding(AtBoundary(inp, books, st, p, first))
  {
    SpendingBalances(inp, st, p, first, p.to);
    RollLoses(Spend(inp, st, p, first, p.to).0, p.to);
  }

  lemma {:induction false} PeriodBalances(inp: Inputs, books: Books, st: State, p: Period, first: bool)
    requires WellFormed(inp) && Sound(inp.grants, st)
    requires Sum(st.active) == Outstanding(books)
    ensures Sum(Close(inp, st, p, first).active)
            == Outstanding(AtBoundary(inp, AtOpening(inp, books, st, p, first), st, p, first))
  {
    OpeningBalances(inp, books, st, p, first);
    ClosingBalances(inp, AtOpening(inp, books, st, p, first), st, p, first);
  }

  lemma {:induction false} PeriodKeepsBalance(inp: Inputs, periods: seq<Period>, k: nat)
    requires WellFormed(inp) && k < |periods|
    requires Sum(StateAt(inp, periods, 0, FRESH, k).active) == Outstanding(Closed(inp, periods, k))
    ensures Sum(StateAt(inp, periods, 0, FRESH, k + 1).active) == Outstanding(Closed(inp, periods, k + 1))
  {
    var st := StateAt(inp, periods, 0, FRESH, k);
    StateAtSound(inp, periods, 0, FRESH, k);
    PeriodBalances(inp, Closed(inp, periods, k), st, periods[k], k == 0);
  }

  /** At every boundary the credit in play is what came in less what went out. */
  lemma {:induction false} BooksBalance(inp: Inputs, periods: seq<Period>, j: nat)
    requires WellFormed(inp) && j <= |periods|
    ensures Sum(StateAt(inp, periods, 0, FRESH, j).active) == Outstanding(Closed(inp, periods, j))
  {
    if j > 0 {
      hide *;
      BooksBalance(inp, periods, j - 1);
      PeriodKeepsBalance(inp, periods, j - 1);
    }
  }

  lemma {:induction false} AdmittedTotal(inp: Inputs, periods: seq<Period>, j: nat)
    requires j < |periods|
    ensures Opened(inp, periods, j).admitted == Sum(AdmissionLog(inp, periods, j + 1))
  {
    if j > 0 {
      AdmittedTotal(inp, periods, j - 1);
    }
    var st := StateAt(inp, periods, 0, FRESH, j);
    SumAppend(AdmissionLog(inp, periods, j), Admit(inp.grants, st.seen, periods[j], j == 0).0);
  }

  /** The period under way: what it opened with is spent, left, or expired by `t`. */
  lemma {:induction false} CurrentBalances(inp: Inputs, st: State, p: Period, first: bool, t: Time)
    requires WellFormed(inp) && Sound(inp.grants, st)
    ensures var r := AnswerIn(inp, st, p, first, t);
            Sum(Open(inp, st, p, first).active)
            == r.balance + ExpiredSum(Spend(inp, st, p, first, t).0, t) + (r.usage - r.overage)
  {
    SpendingBalances(inp, st, p, first, t);
    LiveOrExpired(Spend(inp, st, p, first, t).0, t);
    hide Spend, Open, Sum, LiveSum, ExpiredSum;
  }

  /** Conservation over a full replay: the amounts of all grants effective before the end
      of the current period equal the balance, plus what expired inside the period, plus
      all usage that found credit, plus what boundaries expired, plus what the cap cut. */
  lemma {:induction false} CreditIsConserved(inp: Inputs, periods: seq<Period>, t: Time)
    requires WellFormed(inp) && Contiguous(periods) && |periods| > 0
    ensures var last := |periods| - 1;
            var r, current := Answer(inp, periods, 0, FRESH, t), Current(inp, periods, 0, FRESH, t).0;
            var books := Opened(inp, periods, last);
            Sum(EffectiveBefore(inp.grants, periods[last].to))
            == r.balance + ExpiredSum(current, t) + (r.usage - r.overage) + books.spent + books.expired + books.cut
  {
    hide WellFormed, Contiguous, AtOpening, Closed, Spend, Open, ExpiredSum, StateAt, EffectiveBefore, Sum, AnswerIn;
    var last := |periods| - 1;
    var st := StateAt(inp, periods, 0, FRESH, last);
    BooksBalance(inp, periods, last);
    OpeningBalances(inp, Closed(inp, periods, last), st, periods[last], last == 0);
    StateAtSound(inp, periods, 0, FRESH, last);
    CurrentBalances(inp, st, periods[last], last == 0, t);
    AdmittedTotal(inp, periods, last);
    AdmittedExactlyOnce(inp, periods, |periods|);
    SumPermutes(AdmissionLog(inp, periods, |periods|), EffectiveBefore(inp.grants, periods[last].to));
  }

  lemma {:induction false} OpeningTakes(inp: Inputs, st: State, p: Period, first: bool)
    requires WellFormed(inp) && Sound(inp.grants, st)
    ensures ExpiredSum(st.active + Admit(inp.grants, st.seen, p, first).0, p.from) >= 0
  {
    var both := st.active + Admit(inp.grants, st.seen, p, first).0;
    AdmitFacts(inp.grants, st.seen, p, first);
    forall i | 0 <= i < |both|
      ensures both[i].remaining >= 0
    {
      assert both[i] in st.active || both[i] in Admit(inp.grants, st.seen, p, first).0;
    }
    LossesNonNegative(both, p.from);
  }

  lemma {:induction false} SpendingTakes(inp: Inputs, st: State, p: Period, first: bool, upTo: Time)
    requires WellFormed(inp) && Sound(inp.grants, st) && inp.usage(p.from, upTo) >= 0
    ensures var (active, overage) := Spend(inp, st, p, first, upTo);
            && overage <= inp.usage(p.from, upTo)
            && 0 <= LiveSum(active, upTo) && 0 <= ExpiredSum(active, upTo) && 0 <= CutSum(active, upTo)
  {
    var ready := inp.sort(Open(inp, st, p, first).active);
    SpendKeepsSound(inp, st, p, first, upTo);
    SpendingBalances(inp, st, p, first, upTo);
    BurnOverage(ready, inp.usage(p.from, upTo));
    SumNonNegative(ready);
    LossesNonNegative(Spend(inp, st, p, first, upTo).0, upTo);
  }

  lemma {:induction false} ClosingTakes(inp: Inputs, periods: seq<Period>, j: nat)
    requires WellFormed(inp) && 0 < j <= |periods|
    requires forall a, b :: inp.usage(a, b) >= 0
    ensures var before, books := Opened(inp, periods, j - 1), Closed(inp, periods, j);
            before.spent <= books.spent && before.expired <= books.expired && before.cut <= books.cut
  {
    var st, p := StateAt(inp, periods, 0, FRESH, j - 1), periods[j - 1];
    StateAtSound(inp, periods, 0, FRESH, j - 1);
    SpendingTakes(inp, st, p, j - 1 == 0, p.to);
  }

  lemma {:induction false} OpenedIs(inp: Inputs, periods: seq<Period>, j: nat)
    requires j < |periods|
    ensures Opened(inp, periods, j)
            == AtOpening(inp, Closed(inp, periods, j), StateAt(inp, periods, 0, FRESH, j), periods[j], j == 0)
    ensures j == 0 ==> Closed(inp, periods, j) == Books(0, 0, 0, 0)
  {
  }

  /** No loss is negative: each way out of play only ever takes credit. */
  lemma {:induction false} BooksOnlyGrow(inp: Inputs, periods: seq<Period>, j: nat)
    requires WellFormed(inp) && j < |periods|
    requires forall a, b :: inp.usage(a, b) >= 0
    ensures var before, books := Closed(inp, periods, j), Opened(inp, periods, j);
            && 0 <= before.spent <= books.spent
            && 0 <= before.expired <= books.expired
            && 0 <= before.cut <= books.cut
  {
    if j > 0 {
      BooksOnlyGrow(inp, periods, j - 1);
      ClosingTakes(inp, periods, j);
    }
    StateAtSound(inp, periods, 0, FRESH, j);
    hide StateAt, WellFormed, Sound;
    OpeningTakes(inp, StateAt(inp, periods, 0, FRESH, j), periods[j], j == 0);
    OpenedIs(inp, periods, j);
    hide Opened, Closed;
  }

  // ---- Bounds ----

  lemma {:induction false} OpeningOnlyAdmits(inp: Inputs, periods: seq<Period>, j: nat)
    requires WellFormed(inp) && j < |periods|
    ensures Closed(inp, periods, j).admitted <= Opened(inp, periods, j).admitted
  {
    var st := StateAt(inp, periods, 0, FRESH, j);
    var admitted := Admit(inp.grants, st.seen, periods[j], j == 0).0;
    AdmitFacts(inp.grants, st.seen, periods[j], j == 0);
    forall i | 0 <= i < |admitted|
      ensures admitted[i].remaining >= 0
    {
      assert admitted[i] in admitted;
    }
    SumNonNegative(admitted);
  }

  lemma {:induction false} SumOfSound(grants: seq<Grant>, st: State)
    requires Sound(grants, st)
    ensures Sum(st.active) >= 0
  {
    forall i | 0 <= i < |st.active| ensures st.active[i].remaining >= 0 { assert st.active[i] in st.active; }
    SumNonNegative(st.active);
  }

  lemma {:induction false} AnswerBounded(inp: Inputs, periods: seq<Period>, t: Time)
    requires WellFormed(inp) && Contiguous(periods) && |periods| > 0
    requires forall a, b :: inp.usage(a, b) >= 0
    ensures 0 <= Answer(inp, periods, 0, FRESH, t).balance
            <= Sum(EffectiveBefore(inp.grants, periods[|periods| - 1].to))
  {
    var last := |periods| - 1;
    var st := StateAt(inp, periods, 0, FRESH, last);
    CreditIsConserved(inp, periods, t);
    BooksOnlyGrow(inp, periods, last);
    StateAtSound(inp, periods, 0, FRESH, last);
    SpendingTakes(inp, st, periods[last], last == 0, t);
  }

  lemma {:induction false} BoundarySound(inp: Inputs, periods: seq<Period>, j: nat)
    requires WellFormed(inp) && j <= |periods|
    ensures Sound(inp.grants, StateAt(inp, periods, 0, FRESH, j))
  {
    StateAtSound(inp, periods, 0, FRESH, j);
  }

  lemma {:induction false} BoundaryBounded(inp: Inputs, periods: seq<Period>, j: nat)
    requires WellFormed(inp) && Contiguous(periods) && 0 < j < |periods|
    requires forall a, b :: inp.usage(a, b) >= 0
    ensures 0 <= Sum(StateAt(inp, periods, 0, FRESH, j).active) <= Sum(EffectiveBefore(inp.grants, periods[j].to))
  {
    hide WellFormed, Contiguous, Sum, EffectiveBefore, StateAt, Closed, Opened, AdmissionLog, Sound;
    BooksBalance(inp, periods, j);
    BooksOnlyGrow(inp, periods, j);
    AdmittedTotal(inp, periods, j);
    AdmittedExactlyOnce(inp, periods, j + 1);
    SumPermutes(AdmissionLog(inp, periods, j + 1), EffectiveBefore(inp.grants, periods[j].to));
    OpeningOnlyAdmits(inp, periods, j);
    BoundarySound(inp, periods, j);
    SumOfSound(inp.grants, StateAt(inp, periods, 0, FRESH, j));
  }

  /** No stored balance and no answer exceeds the sum of the amounts, so none overflows
      where that sum does not. */
  lemma {:induction false} BalancesBounded(inp: Inputs, periods: seq<Period>, j: nat, t: Time)
    requires WellFormed(inp) && Contiguous(periods) && 0 < j < |periods|
    requires forall a, b :: inp.usage(a, b) >= 0
    ensures 0 <= Captured(inp, periods, 0, FRESH, j)[j - 1].balance <= Sum(EffectiveBefore(inp.grants, periods[j].to))
    ensures 0 <= Answer(inp, periods, 0, FRESH, t).balance
            <= Sum(EffectiveBefore(inp.grants, periods[|periods| - 1].to))
  {
    hide WellFormed, Contiguous, Sum, EffectiveBefore, StateAt, Answer;
    BoundaryBounded(inp, periods, j);
    AnswerBounded(inp, periods, t);
  }
}
