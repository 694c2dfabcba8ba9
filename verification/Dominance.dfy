/** More credit or less usage never leaves anyone with less, over whole runs. */
module Dominance {
  import opened Options
  import opened Calendar
  import opened Periods
  import opened Ledger
  import opened Sorting
  import opened Burning
  import opened Soundness

  /** The same grant on terms at least as good: amount, expiry, rollover cap. */
  predicate Improves(h: Grant, g: Grant) {
    && h.id == g.id && h.priority == g.priority && h.effectiveAt == g.effectiveAt
    && h.amount >= g.amount
    && (h.expiresAt.None? || (g.expiresAt.Some? && g.expiresAt.value <= h.expiresAt.value))
    && (h.rolloverMax.None? || (g.rolloverMax.Some? && g.rolloverMax.value <= h.rolloverMax.value))
  }

  predicate Above(y: Active, x: Active) {
    Improves(y.grant, x.grant) && x.remaining <= y.remaining
  }

  predicate Covered(b: seq<Active>, x: Active) {
    exists y :: y in b && Above(y, x)
  }

  /** `b` holds at least as much as `a` of every grant in `a`. */
  predicate Covers(b: seq<Active>, a: seq<Active>) {
    forall x :: x in a ==> Covered(b, x)
  }

  /** No two grants tie in burn order, so the order of burning is determined. */
  predicate KeysApart(grants: seq<Grant>) {
    forall g, h :: g in grants && h in grants && SameKey(g, h) ==> g.id == h.id
  }

  // ---- Sorted lists, walked together ----

  /** The grants of `a` appear in `b` in the same order, covered. */
  predicate Dominates(b: seq<Active>, a: seq<Active>) {
    if b == [] then a == []
    else if a != [] && a[0].grant.id == b[0].grant.id then Above(b[0], a[0]) && Dominates(b[1..], a[1..])
    else Dominates(b[1..], a)
  }

  lemma {:induction false} SoundKeys(grants: seq<Grant>, st: State)
    requires Sound(grants, st) && KeysApart(grants)
    ensures DistinctKeys(st.active) && NonNegative(st.active)
  {
    forall i | 0 <= i < |st.active|
      ensures st.active[i].grant in grants && st.active[i].remaining >= 0
    {
      assert st.active[i] in st.active;
    }
  }

  lemma {:induction false} HeadsMatch(b: seq<Active>, a: seq<Active>)
    requires UniqueActive(a) && UniqueActive(b) && Covers(b, a)
    requires a != [] && b != [] && a[0].grant.id == b[0].grant.id
    ensures Above(b[0], a[0]) && Covers(b[1..], a[1..])
  {
    assert a[0] in a;
    var y :| y in b && Above(y, a[0]);
    forall x | x in a[1..]
      ensures Covered(b[1..], x)
    {
      assert x in a;
      var z :| z in b && Above(z, x);
      assert z.grant.id != b[0].grant.id;
      assert z in b[1..];
    }
  }

  lemma {:induction false} HeadUnneeded(b: seq<Active>, a: seq<Active>)
    requires Ordered(a) && Ordered(b) && DistinctKeys(a)
    requires UniqueActive(b) && Covers(b, a)
    requires b != [] && (a == [] || a[0].grant.id != b[0].grant.id)
    ensures Covers(b[1..], a)
  {
    forall i | 0 <= i < |a|
      ensures Covered(b[1..], a[i])
    {
      assert a[i] in a && a[0] in a;
      var y :| y in b && Above(y, a[i]);
      if y == b[0] {
        var z :| z in b && Above(z, a[0]);
        assert Less(a[0].grant, a[i].grant);
        assert Less(z.grant, b[0].grant);
        assert false;
      }
      assert y in b[1..];
    }
  }

  lemma {:induction false} CoversInOrder(b: seq<Active>, a: seq<Active>)
    requires Ordered(a) && Ordered(b) && DistinctKeys(a) && DistinctKeys(b)
    requires UniqueActive(a) && UniqueActive(b) && Covers(b, a)
    ensures Dominates(b, a)
    decreases |b|
  {
    assert a == [] || Covered(b, a[0]) by {
      if a != [] { assert a[0] in a; }
    }
    if b == [] {
    } else if a != [] && a[0].grant.id == b[0].grant.id {
      HeadsMatch(b, a);
      CoversInOrder(b[1..], a[1..]);
    } else {
      HeadUnneeded(b, a);
      CoversInOrder(b[1..], a);
    }
  }

  lemma {:induction false} DominatesCovers(b: seq<Active>, a: seq<Active>)
    requires Dominates(b, a)
    ensures Covers(b, a)
    decreases |b|
  {
    if b != [] {
      if a != [] && a[0].grant.id == b[0].grant.id {
        DominatesCovers(b[1..], a[1..]);
        forall x | x in a
          ensures Covered(b, x)
        {
          if x != a[0] {
            assert x in a[1..];
            var y :| y in b[1..] && Above(y, x);
            assert y in b;
          }
        }
      } else {
        DominatesCovers(b[1..], a);
        forall x | x in a
          ensures Covered(b, x)
        {
          var y :| y in b[1..] && Above(y, x);
          assert y in b;
        }
      }
    }
  }

  /** Burning one grant and handing the rest of the usage on. */
  lemma {:induction false} BurnHead(s: seq<Active>, usage: int)
    requires s != [] && NonNegative(s) && usage >= 0
    ensures var rest := Burn(s[1..], Max0(usage - s[0].remaining));
            && Burn(s, usage).0 == [s[0].(remaining := Max0(s[0].remaining - usage))] + rest.0
            && Burn(s, usage).1 == rest.1
  {
  }

  /** Less usage on more credit leaves more of every grant and less overage. */
  lemma {:induction false} BurnDominates(b: seq<Active>, a: seq<Active>, less: int, more: int)
    requires Dominates(b, a) && NonNegative(a) && NonNegative(b) && 0 <= less <= more
    ensures Dominates(Burn(b, less).0, Burn(a, more).0)
    ensures Burn(b, less).1 <= Burn(a, more).1
    decreases |b|
  {
    if b != [] {
      BurnHead(b, less);
      var b' := Burn(b, less).0;
      if a != [] && a[0].grant.id == b[0].grant.id {
        BurnHead(a, more);
        BurnDominates(b[1..], a[1..], Max0(less - b[0].remaining), Max0(more - a[0].remaining));
        assert Burn(a, more).0[1..] == Burn(a[1..], Max0(more - a[0].remaining)).0;
      } else {
        BurnDominates(b[1..], a, Max0(less - b[0].remaining), more);
        BurnKeepsGrants(a, more);
      }
      assert b'[1..] == Burn(b[1..], Max0(less - b[0].remaining)).0;
    }
  }

  lemma {:induction false} LiveSumHead(s: seq<Active>, t: Time)
    requires s != []
    ensures LiveSum(s, t) == (if Expired(s[0].grant, t) then 0 else s[0].remaining) + LiveSum(s[1..], t)
  {
    if |s| == 1 {
      assert s[..0] == [] && s[1..] == [];
    } else {
      LiveSumHead(s[..|s| - 1], t);
      assert s[1..][..|s| - 2] == s[..|s| - 1][1..];
    }
  }

  lemma {:induction false} LiveSumDominates(b: seq<Active>, a: seq<Active>, t: Time)
    requires Dominates(b, a) && NonNegative(b)
    ensures LiveSum(a, t) <= LiveSum(b, t)
    decreases |b|
  {
    if b != [] {
      LiveSumHead(b, t);
      if a != [] && a[0].grant.id == b[0].grant.id {
        LiveSumHead(a, t);
        LiveSumDominates(b[1..], a[1..], t);
      } else {
        LiveSumDominates(b[1..], a, t);
      }
    }
  }

  // ---- The steps of a period ----

  lemma {:induction false} PruneCovers(b: seq<Active>, a: seq<Active>, at: Time)
    requires Covers(b, a)
    ensures Covers(Prune(b, at), Prune(a, at))
  {
    PruneFacts(a, at);
    PruneFacts(b, at);
    forall x | x in Prune(a, at)
      ensures Covered(Prune(b, at), x)
    {
      var y :| y in b && Above(y, x);
      assert y in Prune(b, at);
    }
  }

  lemma {:induction false} RollCovers(b: seq<Active>, a: seq<Active>, to: Time)
    requires Covers(b, a)
    ensures Covers(Roll(b, to), Roll(a, to))
  {
    RollFacts(a, to);
    RollFacts(b, to);
    forall x' | x' in Roll(a, to)
      ensures Covered(Roll(b, to), x')
    {
      var x :| x in a && Carry(x, to) == Some(x');
      var y :| y in b && Above(y, x);
      assert Carry(y, to).Some? && Above(Carry(y, to).value, x');
    }
  }

  lemma {:induction false} AdmitComplete(grants: seq<Grant>, seen: set<Id>, p: Period, first: bool, g: Grant)
    requires UniqueIds(grants) && g in grants && g.id !in seen && Due(g, p, first)
    ensures Active(g, g.amount) in Admit(grants, seen, p, first).0
  {
    var front, last := grants[..|grants| - 1], grants[|grants| - 1];
    if g == last {
      AdmitFacts(front, seen, p, first);
      assert g.id !in IdsDue(front, p, first);
    } else {
      assert g in front;
      AdmitComplete(front, seen, p, first, g);
    }
  }

  predicate HasBetter(grants: seq<Grant>, g: Grant) {
    exists h :: h in grants && Improves(h, g)
  }

  /** Every grant of the poorer inputs exists in the richer ones, on terms as good. */
  predicate Richer(b: Inputs, a: Inputs) {
    forall g :: g in a.grants ==> HasBetter(b.grants, g)
  }

  ghost predicate Thriftier(b: Inputs, a: Inputs) {
    forall from, to :: 0 <= b.usage(from, to) <= a.usage(from, to)
  }

  ghost predicate Comparable(b: Inputs, a: Inputs) {
    && WellFormed(a) && WellFormed(b) && KeysApart(a.grants) && KeysApart(b.grants)
    && Richer(b, a) && Thriftier(b, a)
  }

  lemma {:induction false} UnseenLater(grants: seq<Grant>, seen: set<Id>, p: Period, h: Grant)
    requires UniqueIds(grants) && h in grants && seen <= IdsBefore(grants, p.from)
    ensures p.from <= h.effectiveAt ==> h.id !in seen
  {
  }

  lemma {:induction false} OpenCovers(b: Inputs, a: Inputs, stB: State, stA: State, p: Period, firstB: bool,
                                      firstA: bool)
    requires Comparable(b, a) && Sound(a.grants, stA)
    requires Covers(stB.active, stA.active)
    requires stB.seen <= IdsBefore(b.grants, p.from)
    requires firstA ==> firstB && stB.seen == {}
    ensures Covers(Open(b, stB, p, firstB).active, Open(a, stA, p, firstA).active)
  {
    var newA, newB := Admit(a.grants, stA.seen, p, firstA).0, Admit(b.grants, stB.seen, p, firstB).0;
    AdmitFacts(a.grants, stA.seen, p, firstA);
    forall x | x in stA.active + newA
      ensures Covered(stB.active + newB, x)
    {
      if x in stA.active {
        var y :| y in stB.active && Above(y, x);
        assert y in stB.active + newB;
      } else {
        assert HasBetter(b.grants, x.grant);
        var h :| h in b.grants && Improves(h, x.grant);
        UnseenLater(b.grants, stB.seen, p, h);
        AdmitComplete(b.grants, stB.seen, p, firstB, h);
        assert Active(h, h.amount) in stB.active + newB;
        assert Above(Active(h, h.amount), x);
      }
    }
    PruneCovers(stB.active + newB, stA.active + newA, p.from);
  }

  lemma {:induction false} SortedCovers(b: Inputs, a: Inputs, sB: seq<Active>, sA: seq<Active>)
    requires Sorts(a.sort) && Sorts(b.sort) && Covers(sB, sA)
    ensures Covers(b.sort(sB), a.sort(sA))
  {
    forall x | x in a.sort(sA)
      ensures Covered(b.sort(sB), x)
    {
      assert x in multiset(a.sort(sA));
      assert x in sA;
      var y :| y in sB && Above(y, x);
      assert y in multiset(b.sort(sB));
    }
  }

  /** Two runs in the same period: what the richer one spends down to covers the poorer. */
  lemma {:induction false} SpendDominates(b: Inputs, a: Inputs, stB: State, stA: State, p: Period, firstB: bool,
                                          firstA: bool, upTo: Time)
    requires Comparable(b, a) && Sound(a.grants, stA) && Sound(b.grants, stB)
    requires Covers(Open(b, stB, p, firstB).active, Open(a, stA, p, firstA).active)
    ensures Dominates(Spend(b, stB, p, firstB, upTo).0, Spend(a, stA, p, firstA, upTo).0)
    ensures Spend(b, stB, p, firstB, upTo).1 <= Spend(a, stA, p, firstA, upTo).1
    ensures NonNegative(Spend(b, stB, p, firstB, upTo).0)
  {
    var openA, openB := Open(a, stA, p, firstA), Open(b, stB, p, firstB);
    SpendKeepsSound(a, stA, p, firstA, upTo);
    SpendKeepsSound(b, stB, p, firstB, upTo);
    SoundKeys(a.grants, State(a.sort(openA.active), openA.seen));
    SoundKeys(b.grants, State(b.sort(openB.active), openB.seen));
    SortedCovers(b, a, openB.active, openA.active);
    CoversInOrder(b.sort(openB.active), a.sort(openA.active));
    BurnDominates(b.sort(openB.active), a.sort(openA.active), b.usage(p.from, upTo), a.usage(p.from, upTo));
    BurnBounds(b.sort(openB.active), b.usage(p.from, upTo));
  }

  lemma {:induction false} CloseCovers(b: Inputs, a: Inputs, stB: State, stA: State, p: Period, firstB: bool,
                                       firstA: bool)
    requires Comparable(b, a) && Sound(a.grants, stA) && Sound(b.grants, stB)
    requires Covers(Open(b, stB, p, firstB).active, Open(a, stA, p, firstA).active)
    ensures Covers(Close(b, stB, p, firstB).active, Close(a, stA, p, firstA).active)
  {
    SpendDominates(b, a, stB, stA, p, firstB, firstA, p.to);
    DominatesCovers(Spend(b, stB, p, firstB, p.to).0, Spend(a, stA, p, firstA, p.to).0);
    RollCovers(Spend(b, stB, p, firstB, p.to).0, Spend(a, stA, p, firstA, p.to).0, p.to);
  }

  /** Across a boundary: closed, and opened again. */
  lemma {:induction false} BoundaryCovers(b: Inputs, a: Inputs, stB: State, stA: State, p: Period, firstB: bool,
                                          firstA: bool, next: Period)
    requires Comparable(b, a) && Sound(a.grants, stA) && Sound(b.grants, stB)
    requires Covers(Open(b, stB, p, firstB).active, Open(a, stA, p, firstA).active)
    requires Close(b, stB, p, firstB).seen == IdsBefore(b.grants, next.from)
    ensures Covers(Close(b, stB, p, firstB).active, Close(a, stA, p, firstA).active)
    ensures Covers(Open(b, Close(b, stB, p, firstB), next, false).active,
                   Open(a, Close(a, stA, p, firstA), next, false).active)
  {
    CloseCovers(b, a, stB, stA, p, firstB, firstA);
    CloseKeepsSound(a, stA, p, firstA);
    OpenCovers(b, a, Close(b, stB, p, firstB), Close(a, stA, p, firstA), next, false, false);
  }

  /** At least the balance, at most the overage, and access wherever the other has it. */
  predicate AtLeast(richer: BalanceResult, poorer: BalanceResult) {
    && richer.balance >= poorer.balance
    && richer.overage <= poorer.overage
    && (poorer.hasAccess ==> richer.hasAccess)
  }

  lemma {:induction false} SpendAnswers(b: Inputs, a: Inputs, stB: State, stA: State, p: Period, firstB: bool,
                                        firstA: bool, t: Time)
    requires Comparable(b, a) && Sound(a.grants, stA) && Sound(b.grants, stB)
    requires Covers(Open(b, stB, p, firstB).active, Open(a, stA, p, firstA).active)
    ensures AtLeast(AnswerIn(b, stB, p, firstB, t), AnswerIn(a, stA, p, firstA, t))
  {
    SpendDominates(b, a, stB, stA, p, firstB, firstA, t);
    LiveSumDominates(Spend(b, stB, p, firstB, t).0, Spend(a, stA, p, firstA, t).0, t);
  }

  // ---- Whole runs ----

  /** One run: where it started and from what. */
  datatype Run = Run(inp: Inputs, start: nat, st0: State)

  ghost predicate RunsOver(run: Run, periods: seq<Period>) {
    && run.start < |periods| && Contiguous(periods)
    && WellFormed(run.inp) && Sound(run.inp.grants, run.st0)
    && run.st0.seen <= IdsBefore(run.inp.grants, periods[run.start].from)
  }

  function At(run: Run, periods: seq<Period>, j: nat): State
    requires run.start <= j <= |periods|
  {
    StateAt(run.inp, periods, run.start, run.st0, j)
  }

  function OpenedAt(run: Run, periods: seq<Period>, j: nat): seq<Active>
    requires run.start <= j < |periods|
  {
    Open(run.inp, At(run, periods, j), periods[j], j == run.start).active
  }

  function AnswerOf(run: Run, periods: seq<Period>, t: Time): BalanceResult
    requires run.start < |periods|
  {
    var last := |periods| - 1;
    AnswerIn(run.inp, At(run, periods, last), periods[last], last == run.start, t)
  }

  lemma {:induction false} LastAnswer(run: Run, periods: seq<Period>, t: Time)
    requires run.start < |periods|
    ensures AnswerOf(run, periods, t)
            == AnswerIn(run.inp, At(run, periods, |periods| - 1), periods[|periods| - 1], |periods| - 1 == run.start, t)
  {
  }

  lemma {:induction false} RunSound(run: Run, periods: seq<Period>, j: nat)
    requires RunsOver(run, periods) && run.start <= j < |periods|
    ensures Sound(run.inp.grants, At(run, periods, j))
  {
    StateAtSound(run.inp, periods, run.start, run.st0, j);
  }

  lemma {:induction false} RunSeen(run: Run, periods: seq<Period>, j: nat)
    requires RunsOver(run, periods) && run.start <= j && j + 1 < |periods|
    ensures Close(run.inp, At(run, periods, j), periods[j], j == run.start).seen
            == IdsBefore(run.inp.grants, periods[j + 1].from)
  {
    hide Close;
    SeenIsBefore(run.inp, periods, run.start, run.st0, j + 1);
    assert periods[j].to == periods[j + 1].from;
  }

  lemma {:induction false} NextOpened(b: Run, a: Run, periods: seq<Period>, j: nat)
    requires Comparable(b.inp, a.inp) && RunsOver(a, periods) && RunsOver(b, periods)
    requires a.start <= j && b.start <= j && j + 1 < |periods|
    requires Covers(OpenedAt(b, periods, j), OpenedAt(a, periods, j))
    ensures Covers(OpenedAt(b, periods, j + 1), OpenedAt(a, periods, j + 1))
    ensures Covers(At(b, periods, j + 1).active, At(a, periods, j + 1).active)
  {
    RunSound(a, periods, j);
    RunSound(b, periods, j);
    RunSeen(b, periods, j);
    BoundaryCovers(b.inp, a.inp, At(b, periods, j), At(a, periods, j), periods[j],
                   j == b.start, j == a.start, periods[j + 1]);
  }

  lemma {:induction false} StaysCovered(b: Run, a: Run, periods: seq<Period>, base: nat, j: nat)
    requires Comparable(b.inp, a.inp) && RunsOver(a, periods) && RunsOver(b, periods)
    requires a.start <= base && b.start <= base <= j < |periods|
    requires Covers(OpenedAt(b, periods, base), OpenedAt(a, periods, base))
    ensures Covers(OpenedAt(b, periods, j), OpenedAt(a, periods, j))
    ensures base < j ==> Covers(At(b, periods, j).active, At(a, periods, j).active)
    decreases j
  {
    hide Comparable, RunsOver, Open, Close, Covers;
    if base < j {
      StaysCovered(b, a, periods, base, j - 1);
      NextOpened(b, a, periods, j - 1);
    }
  }

  /** A run that has once opened with as much of everything answers with at least as much. */
  lemma {:induction false} AnswersAtLeast(b: Run, a: Run, periods: seq<Period>, base: nat, t: Time)
    requires Comparable(b.inp, a.inp) && RunsOver(a, periods) && RunsOver(b, periods)
    requires a.start <= base && b.start <= base < |periods|
    requires Covers(OpenedAt(b, periods, base), OpenedAt(a, periods, base))
    ensures AtLeast(AnswerOf(b, periods, t), AnswerOf(a, periods, t))
  {
    hide Comparable, RunsOver, AnswerIn, Sound, Covers, Open;
    var last := |periods| - 1;
    var p, firstA, firstB := periods[last], last == a.start, last == b.start;
    var stA, stB := At(a, periods, last), At(b, periods, last);
    assert AtLeast(AnswerIn(b.inp, stB, p, firstB, t), AnswerIn(a.inp, stA, p, firstA, t)) by {
      StaysCovered(b, a, periods, base, last);
      RunSound(a, periods, last);
      RunSound(b, periods, last);
      SpendAnswers(b.inp, a.inp, stB, stA, p, firstB, firstA, t);
    }
    LastAnswer(a, periods, t);
    LastAnswer(b, periods, t);
  }

  /** Whole-run monotonicity: adding grants, raising amounts, extending expiries, raising
      caps or lowering usage anywhere never lowers what is left of any grant at any
      boundary, nor the final balance, and never raises the overage. */
  lemma {:induction false} MoreCreditNeverHurts(b: Inputs, a: Inputs, periods: seq<Period>, j: nat, t: Time)
    requires Comparable(b, a) && Contiguous(periods) && j < |periods|
    ensures Covers(StateAt(b, periods, 0, FRESH, j).active, StateAt(a, periods, 0, FRESH, j).active)
    ensures AtLeast(Answer(b, periods, 0, FRESH, t), Answer(a, periods, 0, FRESH, t))
  {
    var runA, runB := Run(a, 0, FRESH), Run(b, 0, FRESH);
    OpenCovers(b, a, FRESH, FRESH, periods[0], true, true);
    StaysCovered(runB, runA, periods, 0, j);
    AnswersAtLeast(runB, runA, periods, 0, t);
  }
}
