/** The balance as docs/design.md describes it loads the grants effective by the instant asked for
    and unexpired at it; the code burns all that are effective before the current period ends and
    were unexpired when it began. Exactly when the two answer the same. */
module DocumentedBalance {
  import opened Options
  import opened Calendar
  import opened Periods
  import opened Ledger
  import opened Burning
  import opened Stateless
  import opened Soundness
  import opened Conservation
  import opened Seeding
  import opened Drained
  import opened Sequences
  import opened RowOrder
  import opened TieBreaking

  /** No grant falls due after `t` but still before `to`. */
  predicate NoneDueLater(grants: seq<Grant>, t: Time, to: Time) {
    forall g :: g in grants ==> g.effectiveAt <= t || to <= g.effectiveAt
  }

  // ---- The grants in play ----

  lemma {:induction false} EffectiveBeforeHolds(grants: seq<Grant>, t: Time, a: Active)
    ensures a in EffectiveBefore(grants, t) <==>
            a.grant in grants && a.grant.effectiveAt < t && a.remaining == a.grant.amount
  {
    if grants != [] {
      var front, g := grants[..|grants| - 1], grants[|grants| - 1];
      EffectiveBeforeHolds(front, t, a);
      assert a.grant in grants <==> a.grant in front || a.grant == g;
    }
  }

  lemma {:induction false} SameBefore(grants: seq<Grant>, t: Time, to: Time)
    requires NoneDueLater(grants, t, to) && t < to
    ensures EffectiveBefore(grants, to) == EffectiveBefore(grants, t + 1)
  {
    if grants != [] {
      assert grants[|grants| - 1] in grants;
      SameBefore(grants[..|grants| - 1], t, to);
    }
  }

  /** A read at `t` brings into play exactly the grants the document counts if and only if
      none falls due later in the current period. */
  lemma {:induction false} AdmitsAsDocumented(inp: Inputs, ps: seq<Period>, t: Time)
    requires WellFormed(inp) && Contiguous(ps) && |ps| > 0 && t < ps[|ps| - 1].to
    ensures multiset(AdmissionLog(inp, ps, |ps|)) == multiset(EffectiveBefore(inp.grants, t + 1))
            <==> NoneDueLater(inp.grants, t, ps[|ps| - 1].to)
  {
    var to := ps[|ps| - 1].to;
    AdmittedExactlyOnce(inp, ps, |ps|);
    if NoneDueLater(inp.grants, t, to) {
      SameBefore(inp.grants, t, to);
    } else {
      var g :| g in inp.grants && t < g.effectiveAt < to;
      var a := Active(g, g.amount);
      EffectiveBeforeHolds(inp.grants, to, a);
      EffectiveBeforeHolds(inp.grants, t + 1, a);
      assert a in multiset(EffectiveBefore(inp.grants, to));
      assert a !in multiset(EffectiveBefore(inp.grants, t + 1));
    }
  }

  // ---- The answer ----

  /** The grants not let in yet. */
  function Unmarked(grants: seq<Grant>, seen: set<Id>): (rest: seq<Grant>)
    ensures forall g :: g in rest <==> g in grants && g.id !in seen
  {
    if grants == [] then []
    else
      var rest, g := Unmarked(grants[..|grants| - 1], seen), grants[|grants| - 1];
      if g.id in seen then rest else rest + [g]
  }

  /** The grants the document loads at `t` in a period entered with `st`: effective by `t` and
      unexpired at `t`, with what was carried over the boundary, else whole. */
  function Loaded(inp: Inputs, st: State, t: Time): seq<Active> {
    Prune(st.active, t) + LiveGrants(Unmarked(inp.grants, st.seen), t)
  }

  /** The document's answer: usage taken from those in burn order. */
  function DocumentedIn(inp: Inputs, st: State, p: Period, t: Time): BalanceResult {
    var (active, overage) := Burn(inp.sort(Loaded(inp, st, t)), inp.usage(p.from, t));
    BalanceResult(Sum(active) > 0, Sum(active), inp.usage(p.from, t), overage, Some(p), Some(p.from))
  }

  /** Some grant due later in the period is not expired at `t`. */
  predicate LateCredit(grants: seq<Grant>, t: Time, p: Period) {
    exists g :: g in grants && t < g.effectiveAt < p.to && !Expired(g, t)
  }

  /** In burn order, the credit ahead of any grant expired at `t` covers the usage. */
  predicate ExpiredSpared(s: seq<Active>, t: Time, usage: int) {
    forall i :: 0 <= i < |s| && Expired(s[i].grant, t) ==> usage <= Sum(s[..i])
  }

  // ---- Three kinds of credit in play ----

  predicate IsLate(g: Grant, t: Time) { t < g.effectiveAt && !Expired(g, t) }

  function LateTotal(s: seq<Active>, t: Time): int {
    if s == [] then 0
    else LateTotal(s[..|s| - 1], t) + (if IsLate(s[|s| - 1].grant, t) then s[|s| - 1].remaining else 0)
  }

  /** The entries that are effective and unexpired at `t`. */
  function Now(s: seq<Active>, t: Time): seq<Active> {
    if s == [] then []
    else
      var rest := Now(s[..|s| - 1], t);
      if LiveAt(s[|s| - 1].grant, t) then rest + [s[|s| - 1]] else rest
  }

  lemma {:induction false} ThreeKinds(s: seq<Active>, t: Time)
    ensures Sum(s) == Sum(Now(s, t)) + LateTotal(s, t) + ExpiredSum(s, t)
  {
    if s != [] {
      ThreeKinds(s[..|s| - 1], t);
    }
  }

  lemma {:induction false} NowHolds(s: seq<Active>, t: Time)
    ensures forall x :: x in Now(s, t) <==> x in s && LiveAt(x.grant, t)
    ensures UniqueActive(s) ==> UniqueActive(Now(s, t))
  {
    if s != [] {
      var front, a := s[..|s| - 1], s[|s| - 1];
      NowHolds(front, t);
      assert forall x :: x in s <==> x in front || x == a;
    }
  }

  lemma {:induction false} LateTotalIs(s: seq<Active>, t: Time)
    requires forall x :: x in s ==> x.remaining > 0
    ensures LateTotal(s, t) >= 0
    ensures LateTotal(s, t) == 0 <==> forall x :: x in s ==> !IsLate(x.grant, t)
  {
    if s != [] {
      var front, a := s[..|s| - 1], s[|s| - 1];
      assert forall x :: x in s <==> x in front || x == a;
      LateTotalIs(front, t);
    }
  }

  /** Burning takes from expired credit as much as its sum falls. */
  lemma {:induction false} ExpiredTaken(s: seq<Active>, r: seq<Active>, t: Time)
    requires |r| == |s|
    requires forall i :: 0 <= i < |s| ==> r[i].grant == s[i].grant && 0 <= r[i].remaining <= s[i].remaining
    ensures 0 <= ExpiredSum(r, t) <= ExpiredSum(s, t)
    ensures ExpiredSum(r, t) == ExpiredSum(s, t)
            <==> forall i :: 0 <= i < |s| && Expired(s[i].grant, t) ==> r[i].remaining == s[i].remaining
  {
    if s != [] {
      var front, rest := s[..|s| - 1], r[..|r| - 1];
      assert forall i :: 0 <= i < |front| ==> front[i] == s[i] && rest[i] == r[i];
      ExpiredTaken(front, rest, t);
    }
  }

  /** Usage takes nothing from expired credit exactly if credit ahead of it covers the usage. */
  lemma {:induction false} SparedIff(s: seq<Active>, t: Time, usage: int)
    requires NonNegative(s) && usage >= 0 && forall x :: x in s ==> x.remaining > 0
    ensures ExpiredSum(Burn(s, usage).0, t) == ExpiredSum(s, t) <==> ExpiredSpared(s, t, usage)
  {
    var r := Burn(s, usage).0;
    BurnBounds(s, usage);
    ExpiredTaken(s, r, t);
    hide Burn, ExpiredSum;
    forall i | 0 <= i < |s|
      ensures r[i].remaining == s[i].remaining <==> usage <= Sum(s[..i])
    {
      assert s[i] in s;
      BurnAt(s, usage, i);
    }
  }

  /** The arithmetic: with credit `now`, `late` and `lapsed` in play and `taken` of the lapsed
      credit spent, what is live and what is uncovered is as if only `now` were there exactly if
      nothing is late and nothing lapsed was taken. */
  lemma {:induction false} AgreeIff(now: int, late: int, lapsed: int, taken: int, usage: int, live: int)
    requires now >= 0 && late >= 0 && 0 <= taken <= lapsed && usage >= 0 && live >= 0
    requires live == Max0(now + late + lapsed - usage) - (lapsed - taken)
    ensures live == Max0(now - usage) && Max0(usage - (now + late + lapsed)) == Max0(usage - now)
            <==> late == 0 && taken == 0
  {
  }

  lemma {:induction false} BurnTotals(s: seq<Active>, t: Time, usage: int)
    requires NonNegative(s) && usage >= 0
    ensures var (r, overage) := Burn(s, usage);
            && overage == Max0(usage - Sum(s))
            && LiveSum(r, t) == Max0(Sum(s) - usage) - ExpiredSum(r, t)
            && 0 <= LiveSum(r, t) && 0 <= ExpiredSum(r, t) <= ExpiredSum(s, t)
  {
    var r := Burn(s, usage).0;
    BurnOverage(s, usage);
    BurnBounds(s, usage);
    ExpiredTaken(s, r, t);
    LiveOrExpired(r, t);
    LossesNonNegative(r, t);
    hide Burn, Sum, LiveSum, ExpiredSum;
  }

  lemma {:induction false} NowNonNegative(s: seq<Active>, t: Time)
    requires NonNegative(s)
    ensures Sum(Now(s, t)) >= 0
  {
    if s != [] {
      NowNonNegative(s[..|s| - 1], t);
    }
  }

  lemma {:induction false} BurnAgrees(s: seq<Active>, t: Time, usage: int)
    requires NonNegative(s) && usage >= 0 && forall x :: x in s ==> x.remaining > 0
    ensures var (active, overage) := Burn(s, usage);
            var now := Sum(Now(s, t));
            LiveSum(active, t) == Max0(now - usage) && overage == Max0(usage - now)
            <==> LateTotal(s, t) == 0 && ExpiredSpared(s, t, usage)
  {
    hide *;
    var r := Burn(s, usage).0;
    ThreeKinds(s, t);
    LateTotalIs(s, t);
    SparedIff(s, t, usage);
    BurnTotals(s, t, usage);
    NowNonNegative(s, t);
    AgreeIff(Sum(Now(s, t)), LateTotal(s, t), ExpiredSum(s, t), ExpiredSum(s, t) - ExpiredSum(r, t), usage,
             LiveSum(r, t));
  }

  // ---- What is loaded is what is in play now ----

  lemma {:induction false} LiveGrantsHold(grants: seq<Grant>, t: Time)
    requires UniqueIds(grants)
    ensures forall x :: x in LiveGrants(grants, t) <==>
              x.grant in grants && LiveAt(x.grant, t) && x.remaining == x.grant.amount
    ensures UniqueActive(LiveGrants(grants, t))
  {
    if grants != [] {
      var front, g := grants[..|grants| - 1], grants[|grants| - 1];
      LiveGrantsHold(front, t);
      assert forall h :: h in grants <==> h in front || h == g;
    }
  }

  lemma {:induction false} UnmarkedUnique(grants: seq<Grant>, seen: set<Id>)
    requires UniqueIds(grants)
    ensures UniqueIds(Unmarked(grants, seen))
  {
    if grants != [] {
      var front := grants[..|grants| - 1];
      UnmarkedUnique(front, seen);
      var rest := Unmarked(front, seen);
      forall i | 0 <= i < |rest|
        ensures rest[i] in front
      {
        assert rest[i] in rest;
      }
    }
  }

  /** A period is entered with whole marks: its first with marks of earlier grants only, any other
      with the marks of all earlier grants. */
  predicate Entered(inp: Inputs, st: State, p: Period, first: bool) {
    && Sound(inp.grants, st) && (forall a :: a in st.active ==> a.remaining > 0)
    && if first then st.seen <= IdsBefore(inp.grants, p.from) else st.seen == IdsBefore(inp.grants, p.from)
  }

  lemma {:induction false} CarriedIsEarlier(inp: Inputs, st: State, p: Period, first: bool, a: Active)
    requires UniqueIds(inp.grants) && Entered(inp, st, p, first) && a in st.active
    ensures a.grant.effectiveAt < p.from
  {
    var g :| g in inp.grants && g.effectiveAt < p.from && g.id == a.grant.id;
    assert g == a.grant;
  }

  lemma {:induction false} UnmarkedIsDue(inp: Inputs, st: State, p: Period, first: bool, g: Grant)
    requires Entered(inp, st, p, first) && g in inp.grants && g.id !in st.seen && p.from < p.to
    ensures Due(g, p, first) <==> g.effectiveAt < p.to
  {
    assert !first && g.effectiveAt < p.from ==> g.id in IdsBefore(inp.grants, p.from);
  }

  lemma {:induction false} LoadedHolds(inp: Inputs, st: State, t: Time, x: Active)
    requires UniqueIds(inp.grants)
    ensures x in Loaded(inp, st, t) <==>
              (x in st.active && !Expired(x.grant, t))
              || (x.grant in inp.grants && x.grant.id !in st.seen && LiveAt(x.grant, t)
                  && x.remaining == x.grant.amount)
  {
    PruneFacts(st.active, t);
    UnmarkedUnique(inp.grants, st.seen);
    LiveGrantsHold(Unmarked(inp.grants, st.seen), t);
    hide Prune, LiveGrants, Unmarked, UniqueIds, UniqueActive;
  }

  lemma {:induction false} LoadedUnique(inp: Inputs, st: State, t: Time)
    requires UniqueIds(inp.grants) && Sound(inp.grants, st)
    ensures UniqueActive(Loaded(inp, st, t))
  {
    var carried, whole := Prune(st.active, t), LiveGrants(Unmarked(inp.grants, st.seen), t);
    PruneFacts(st.active, t);
    UnmarkedUnique(inp.grants, st.seen);
    LiveGrantsHold(Unmarked(inp.grants, st.seen), t);
    hide Prune, LiveGrants, Unmarked, UniqueIds;
    var both: seq<Active> := carried + whole;
    forall i, j | 0 <= i < j < |both|
      ensures both[i].grant.id != both[j].grant.id
    {
      if i < |carried| <= j {
        assert carried[i] in carried && whole[j - |carried|] in whole;
      }
    }
  }

  lemma {:induction false} InPlayNow(inp: Inputs, st: State, p: Period, first: bool, t: Time, x: Active)
    requires WellFormed(inp) && Entered(inp, st, p, first) && p.from <= t < p.to
    ensures x in Loaded(inp, st, t) <==> x in Open(inp, st, p, first).active && LiveAt(x.grant, t)
  {
    OpenHolds(inp, st, p, first, x);
    LoadedHolds(inp, st, t, x);
    if x in st.active {
      CarriedIsEarlier(inp, st, p, first, x);
    }
    if x.grant in inp.grants && x.grant.id !in st.seen {
      UnmarkedIsDue(inp, st, p, first, x.grant);
    }
    hide Open, Loaded, WellFormed, Entered;
  }

  lemma {:induction false} LateInPlay(inp: Inputs, st: State, p: Period, first: bool, t: Time, x: Active)
    requires WellFormed(inp) && Entered(inp, st, p, first) && p.from <= t < p.to
    ensures x in Open(inp, st, p, first).active ==> x.remaining > 0
    ensures x in Open(inp, st, p, first).active && IsLate(x.grant, t) <==>
              x.grant in inp.grants && x.remaining == x.grant.amount
              && t < x.grant.effectiveAt < p.to && !Expired(x.grant, t)
  {
    OpenHolds(inp, st, p, first, x);
    if x in st.active {
      CarriedIsEarlier(inp, st, p, first, x);
    }
    if x.grant in inp.grants {
      var i :| 0 <= i < |inp.grants| && inp.grants[i] == x.grant;
      assert x.grant.amount > 0;
      if x.grant.id in st.seen {
        var g :| g in inp.grants && g.effectiveAt < p.from && g.id == x.grant.id;
        assert g == x.grant;
      } else {
        UnmarkedIsDue(inp, st, p, first, x.grant);
      }
    }
    hide Open, WellFormed, Entered;
  }

  /** The sorted entries of an opened period: live ones are the loaded ones, none is empty, and
      some are late exactly if a grant due later brings credit. */
  lemma {:induction false} ReadyHolds(inp: Inputs, st: State, p: Period, first: bool, t: Time)
    requires WellFormed(inp) && Entered(inp, st, p, first) && p.from <= t < p.to
    ensures var s := inp.sort(Open(inp, st, p, first).active);
            && (forall x :: x in s ==> x.remaining > 0)
            && UniqueActive(s) && NonNegative(s)
            && (forall x: Active :: x in s && LiveAt(x.grant, t) <==> x in Loaded(inp, st, t))
            && ((exists x :: x in s && IsLate(x.grant, t)) <==> LateCredit(inp.grants, t, p))
  {
    var open := Open(inp, st, p, first).active;
    var s := inp.sort(open);
    SpendKeepsSound(inp, st, p, first, t);
    assert forall x :: x in s <==> x in multiset(s);
    assert forall x :: x in open <==> x in multiset(open);
    hide Open, Loaded;
    forall x: Active
      ensures x in s ==> x.remaining > 0
      ensures x in s && LiveAt(x.grant, t) <==> x in Loaded(inp, st, t)
      ensures x in s && IsLate(x.grant, t) <==>
                x.grant in inp.grants && x.remaining == x.grant.amount
                && t < x.grant.effectiveAt < p.to && !Expired(x.grant, t)
    {
      InPlayNow(inp, st, p, first, t, x);
      LateInPlay(inp, st, p, first, t, x);
    }
    if LateCredit(inp.grants, t, p) {
      var g :| g in inp.grants && t < g.effectiveAt < p.to && !Expired(g, t);
      assert Active(g, g.amount) in s && IsLate(g, t);
    }
  }

  // ---- Exactly when the answers agree ----

  lemma {:induction false} LoadedSum(inp: Inputs, st: State, p: Period, first: bool, t: Time)
    requires WellFormed(inp) && Entered(inp, st, p, first) && p.from <= t < p.to
    ensures var s := inp.sort(Open(inp, st, p, first).active);
            multiset(Loaded(inp, st, t)) == multiset(Now(s, t)) && Sum(Loaded(inp, st, t)) == Sum(Now(s, t))
  {
    var s := inp.sort(Open(inp, st, p, first).active);
    ReadyHolds(inp, st, p, first, t);
    NowHolds(s, t);
    LoadedUnique(inp, st, t);
    hide Loaded, Now, Open, LateCredit, Sum;
    assert NoRepeats(Loaded(inp, st, t)) && NoRepeats(Now(s, t));
    SameElementsPermute(Loaded(inp, st, t), Now(s, t));
    SumPermutes(Loaded(inp, st, t), Now(s, t));
  }

  /** The documented answer by its total. */
  lemma {:induction false} DocumentedTotals(inp: Inputs, st: State, p: Period, t: Time)
    requires WellFormed(inp) && inp.usage(p.from, t) >= 0 && NonNegative(Loaded(inp, st, t))
    ensures var r, total := DocumentedIn(inp, st, p, t), Sum(Loaded(inp, st, t));
            && r.balance == Max0(total - inp.usage(p.from, t)) && r.overage == Max0(inp.usage(p.from, t) - total)
  {
    var loaded := Loaded(inp, st, t);
    NonNegativePermutes(loaded, inp.sort(loaded));
    SumPermutes(loaded, inp.sort(loaded));
    BurnOverage(inp.sort(loaded), inp.usage(p.from, t));
    hide Loaded, Burn, Sum;
  }

  lemma {:induction false} SameParts(inp: Inputs, st: State, p: Period, first: bool, t: Time)
    ensures var r, documented := AnswerIn(inp, st, p, first, t), DocumentedIn(inp, st, p, t);
            r == documented <==> r.balance == documented.balance && r.overage == documented.overage
  {
    hide Spend, Loaded, Burn, LiveSum, Sum;
  }

  lemma {:induction false} AnswerParts(inp: Inputs, st: State, p: Period, first: bool, t: Time)
    ensures var r, burned := AnswerIn(inp, st, p, first, t),
                             Burn(inp.sort(Open(inp, st, p, first).active), inp.usage(p.from, t));
            r.balance == LiveSum(burned.0, t) && r.overage == burned.1
  {
  }

  lemma {:induction false} LoadedNonNegative(inp: Inputs, st: State, p: Period, first: bool, t: Time)
    requires WellFormed(inp) && Entered(inp, st, p, first) && p.from <= t < p.to
    ensures NonNegative(Loaded(inp, st, t))
  {
    ReadyHolds(inp, st, p, first, t);
    hide Loaded, Open;
    forall i | 0 <= i < |Loaded(inp, st, t)|
      ensures Loaded(inp, st, t)[i].remaining >= 0
    {
      assert Loaded(inp, st, t)[i] in Loaded(inp, st, t);
    }
  }

  /** The code's answer against the total that is live now. */
  lemma {:induction false} AnswersByNow(inp: Inputs, st: State, p: Period, first: bool, t: Time)
    requires WellFormed(inp) && Entered(inp, st, p, first) && p.from <= t < p.to && inp.usage(p.from, t) >= 0
    ensures var s, r, usage := inp.sort(Open(inp, st, p, first).active), AnswerIn(inp, st, p, first, t),
                               inp.usage(p.from, t);
            var now := Sum(Now(s, t));
            r.balance == Max0(now - usage) && r.overage == Max0(usage - now)
            <==> !LateCredit(inp.grants, t, p) && ExpiredSpared(s, t, usage)
  {
    hide *;
    var s := inp.sort(Open(inp, st, p, first).active);
    ReadyHolds(inp, st, p, first, t);
    LateTotalIs(s, t);
    BurnAgrees(s, t, inp.usage(p.from, t));
    AnswerParts(inp, st, p, first, t);
  }

  /** The answer in a period, however it was entered, is the documented one if and only if no
      grant due later in it is unexpired, and the usage is covered by the credit that burns ahead
      of any grant expired by `t`. */
  lemma {:induction false} AgreesInPeriod(inp: Inputs, st: State, p: Period, first: bool, t: Time)
    requires WellFormed(inp) && Entered(inp, st, p, first) && p.from <= t < p.to && inp.usage(p.from, t) >= 0
    ensures AnswerIn(inp, st, p, first, t) == DocumentedIn(inp, st, p, t)
            <==> !LateCredit(inp.grants, t, p)
                 && ExpiredSpared(inp.sort(Open(inp, st, p, first).active), t, inp.usage(p.from, t))
  {
    hide *;
    AnswersByNow(inp, st, p, first, t);
    LoadedSum(inp, st, p, first, t);
    LoadedNonNegative(inp, st, p, first, t);
    DocumentedTotals(inp, st, p, t);
    SameParts(inp, st, p, first, t);
  }

  lemma {:induction false} EntersLast(inp: Inputs, ps: seq<Period>, j: nat)
    requires WellFormed(inp) && Contiguous(ps) && j < |ps|
    ensures Entered(inp, StateAt(inp, ps, 0, FRESH, j), ps[j], j == 0)
  {
    StateAtSound(inp, ps, 0, FRESH, j);
    if j > 0 {
      SeenIsBefore(inp, ps, 0, FRESH, j);
      assert ps[j - 1].to == ps[j].from;
    }
    hide Close, Contiguous, WellFormed, IdsBefore, Sound;
  }

  /** The same for the full replay, whatever it went through before its last period. */
  lemma {:induction false} DocumentedIff(inp: Inputs, ps: seq<Period>, t: Time)
    requires WellFormed(inp) && Contiguous(ps) && |ps| > 0
    requires var p := ps[|ps| - 1]; p.from <= t < p.to && inp.usage(p.from, t) >= 0
    ensures var last := |ps| - 1;
            var st := StateAt(inp, ps, 0, FRESH, last);
            Periodic(inp, ps, t, None).0 == DocumentedIn(inp, st, ps[last], t)
            <==> !LateCredit(inp.grants, t, ps[last])
                 && ExpiredSpared(inp.sort(Open(inp, st, ps[last], last == 0).active), t, inp.usage(ps[last].from, t))
  {
    var last := |ps| - 1;
    EntersLast(inp, ps, last);
    BeginsFresh(inp.grants, ps);
    hide AnswerIn, DocumentedIn, StateAt, Captured, WellFormed, Contiguous, LateCredit, ExpiredSpared, Entered, Open;
    AgreesInPeriod(inp, StateAt(inp, ps, 0, FRESH, last), ps[last], last == 0, t);
  }

  // ---- The two failing inputs in the small ----

  lemma {:induction false} NothingLoaded(inp: Inputs, st: State, p: Period, t: Time)
    requires WellFormed(inp) && inp.usage(p.from, t) >= 0 && Sum(Loaded(inp, st, t)) <= inp.usage(p.from, t)
    requires NonNegative(Loaded(inp, st, t))
    ensures DocumentedIn(inp, st, p, t).balance == 0
  {
    DocumentedTotals(inp, st, p, t);
  }

  lemma {:induction false} PruneNone(t: Time)
    ensures Prune([], t) == []
  {
  }

  lemma {:induction false} NoneLive(grants: seq<Grant>, t: Time)
    requires forall g :: g in grants ==> t < g.effectiveAt
    ensures LiveGrants(grants, t) == []
  {
    if grants != [] {
      assert grants[|grants| - 1] in grants;
      NoneLive(grants[..|grants| - 1], t);
    }
  }

  lemma {:induction false} LateNotLoaded(inp: Inputs, g: Grant, t: Time)
    requires inp.grants == [g] && t < g.effectiveAt
    ensures Loaded(inp, FRESH, t) == []
  {
    PruneNone(t);
    NoneLive(Unmarked([g], {}), t);
    hide Prune, LiveGrants, Unmarked;
  }

  /** A grant due later in the current period already makes up the whole balance; the document
      does not load it. */
  lemma {:induction false} EffectiveLaterCounts(inp: Inputs, p: Period, g: Grant, t: Time)
    requires WellFormed(inp) && inp.grants == [g] && g.expiresAt.None?
    requires p.from <= t < g.effectiveAt < p.to && inp.usage(p.from, t) == 0
    ensures Periodic(inp, [p], t, None).0.balance == g.amount
    ensures DocumentedIn(inp, FRESH, p, t).balance == 0
  {
    var whole := [Active(g, g.amount)];
    OpensWithOne(inp, p, g);
    assert StateAt(inp, [p], 0, FRESH, 0) == FRESH;
    assert LiveSum(whole, t) == g.amount by { assert whole[..0] == []; }
    assert Spend(inp, FRESH, p, true, t).0 == whole;
    LateNotLoaded(inp, g, t);
    NothingLoaded(inp, FRESH, p, t);
  }

  lemma {:induction false} FirstBurnsFirst(sort: Sorter, g: Grant, h: Grant)
    requires Sorts(sort) && Less(g, h)
    ensures sort(Pair(g, h)) == Pair(g, h)
  {
  }

  lemma {:induction false} OneLoaded(goes: Grant, stays: Grant, t: Time)
    requires goes.effectiveAt <= t && stays.effectiveAt <= t && Expired(goes, t) && !Expired(stays, t)
    ensures Unmarked([goes, stays], {}) == [goes, stays]
    ensures LiveGrants([goes, stays], t) == [Active(stays, stays.amount)]
    ensures LiveSum([Active(goes, 0), Active(stays, stays.amount)], t) == stays.amount
  {
    var spent := [Active(goes, 0), Active(stays, stays.amount)];
    assert [goes, stays][..1] == [goes] && [goes][..0] == [] && [goes] + [stays] == [goes, stays];
    assert Unmarked([], {}) == [] && Unmarked([goes], {}) == [goes];
    assert LiveGrants([], t) == [] && LiveGrants([goes], t) == [];
    assert [] + [Active(stays, stays.amount)] == [Active(stays, stays.amount)];
    assert spent[..1] == [spent[0]] && [spent[0]][..0] == [];
    assert LiveSum([], t) == 0 && LiveSum([spent[0]], t) == 0;
  }

  lemma {:induction false} SumOne(g: Grant)
    ensures Sum([Active(g, g.amount)]) == g.amount
  {
    assert [Active(g, g.amount)][..0] == [];
  }

  /** Two grants of equal amount effective by `t`; the one that burns first expires inside the
      period by `t`, after the usage, as much as it holds, has been taken from it. */
  predicate Lapses(inp: Inputs, p: Period, goes: Grant, stays: Grant, t: Time) {
    && inp.grants == [goes, stays] && goes.id != stays.id && Less(goes, stays)
    && p.from <= goes.effectiveAt <= t < p.to && p.from <= stays.effectiveAt <= t
    && goes.expiresAt.Some? && p.from < goes.expiresAt.value <= t && stays.expiresAt.None?
    && goes.amount == stays.amount == inp.usage(p.from, t) > 0
  }

  lemma {:induction false} BothInPlay(inp: Inputs, p: Period, goes: Grant, stays: Grant, t: Time)
    requires Lapses(inp, p, goes, stays, t)
    ensures Open(inp, FRESH, p, true).active == Pair(goes, stays)
  {
    PairAdmitted(goes, stays, p);
    PairPruned(goes, stays, p.from);
    hide Admit, Prune, Pair;
    assert [] + Pair(goes, stays) == Pair(goes, stays);
  }

  lemma {:induction false} LapsedSpent(inp: Inputs, p: Period, goes: Grant, stays: Grant, t: Time)
    requires Sorts(inp.sort) && Lapses(inp, p, goes, stays, t)
    ensures AnswerIn(inp, FRESH, p, true, t).balance == stays.amount
  {
    BothInPlay(inp, p, goes, stays, t);
    FirstBurnsFirst(inp.sort, goes, stays);
    PairSpent(goes, stays);
    OneLoaded(goes, stays, t);
    hide Open, Burn, Sorts, LiveSum, Unmarked, LiveGrants, Pair;
  }

  lemma {:induction false} LapsedNotLoaded(inp: Inputs, p: Period, goes: Grant, stays: Grant, t: Time)
    requires WellFormed(inp) && Lapses(inp, p, goes, stays, t)
    ensures DocumentedIn(inp, FRESH, p, t).balance == 0
  {
    var loaded := [Active(stays, stays.amount)];
    OneLoaded(goes, stays, t);
    PruneNone(t);
    SumOne(stays);
    hide Prune, WellFormed, Unmarked, LiveGrants, DocumentedIn, Sum;
    assert Loaded(inp, FRESH, t) == loaded by { assert [] + loaded == loaded; }
    NothingLoaded(inp, FRESH, p, t);
  }

  /** The other failing input: a whole grant is left where the document, which does not load the
      expired one, leaves nothing. */
  lemma {:induction false} ExpiredTakesUsage(inp: Inputs, p: Period, goes: Grant, stays: Grant, t: Time)
    requires WellFormed(inp) && Lapses(inp, p, goes, stays, t)
    ensures Periodic(inp, [p], t, None).0.balance == stays.amount
    ensures DocumentedIn(inp, FRESH, p, t).balance == 0
  {
    LapsedSpent(inp, p, goes, stays, t);
    LapsedNotLoaded(inp, p, goes, stays, t);
    BeginsFresh(inp.grants, [p]);
    hide AnswerIn, DocumentedIn, WellFormed, Lapses, Beginning;
    assert StateAt(inp, [p], 0, FRESH, 0) == FRESH;
  }
}
