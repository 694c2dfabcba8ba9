/** What every step of the fold keeps: admitted ids, uniqueness and bounds. */
module Soundness {
  import opened Options
  import opened Calendar
  import opened Periods
  import opened Ledger
  import opened Sequences
  import opened Burning
  import opened Stateless

  predicate UniqueIds(grants: seq<Grant>) {
    forall i, j :: 0 <= i < j < |grants| ==> grants[i].id != grants[j].id
  }

  /** Grants as the grants table holds them, with a sorter that keeps its promise. */
  ghost predicate WellFormed(inp: Inputs) {
    UniqueIds(inp.grants) && Amounts(inp.grants) && Sorts(inp.sort)
  }

  predicate UniqueActive(s: seq<Active>) {
    forall i, j :: 0 <= i < j < |s| ==> s[i].grant.id != s[j].grant.id
  }

  /** Between nothing and the whole amount is left of a known, already marked grant. */
  predicate Held(grants: seq<Grant>, seen: set<Id>, a: Active) {
    a.grant in grants && a.grant.id in seen && 0 <= a.remaining <= a.grant.amount
  }

  predicate Sound(grants: seq<Grant>, st: State) {
    UniqueActive(st.active) && forall a :: a in st.active ==> Held(grants, st.seen, a)
  }

  // ---- Admission ----

  function IdsDue(grants: seq<Grant>, p: Period, first: bool): set<Id> {
    set g | g in grants && Due(g, p, first) :: g.id
  }

  /** Everything due is marked; what enters play does so whole, once, and newly marked. */
  lemma {:induction false} AdmitFacts(grants: seq<Grant>, seen: set<Id>, p: Period, first: bool)
    ensures var (admitted, marked) := Admit(grants, seen, p, first);
            && marked == seen + IdsDue(grants, p, first)
            && UniqueActive(admitted)
            && (forall a :: a in admitted ==>
                  a.grant in grants && a.remaining == a.grant.amount
                  && a.grant.id in marked && a.grant.id !in seen && Due(a.grant, p, first))
  {
    if grants != [] {
      var front, g := grants[..|grants| - 1], grants[|grants| - 1];
      AdmitFacts(front, seen, p, first);
      assert forall h :: h in grants <==> h in front || h == g;
      if Due(g, p, first) {
        assert IdsDue(grants, p, first) == IdsDue(front, p, first) + {g.id};
      } else {
        assert IdsDue(grants, p, first) == IdsDue(front, p, first);
      }
    }
  }

  // ---- Filtering steps ----

  lemma {:induction false} PruneFacts(s: seq<Active>, at: Time)
    ensures forall a :: a in Prune(s, at) <==> a in s && !Expired(a.grant, at)
    ensures UniqueActive(s) ==> UniqueActive(Prune(s, at))
  {
    if s != [] {
      var front, x := s[..|s| - 1], s[|s| - 1];
      PruneFacts(front, at);
      assert forall a :: a in s <==> a in front || a == x;
    }
  }

  lemma {:induction false} RollFacts(s: seq<Active>, to: Time)
    ensures forall b :: b in Roll(s, to) ==> exists a :: a in s && Carry(a, to) == Some(b)
    ensures forall a :: a in s && Carry(a, to).Some? ==> Carry(a, to).value in Roll(s, to)
    ensures UniqueActive(s) ==> UniqueActive(Roll(s, to))
  {
    if s != [] {
      var front, x := s[..|s| - 1], s[|s| - 1];
      RollFacts(front, to);
      assert forall a :: a in s <==> a in front || a == x;
      if UniqueActive(s) && Carry(x, to).Some? {
        forall b | b in Roll(front, to)
          ensures b.grant.id != x.grant.id
        {
          var a :| a in front && Carry(a, to) == Some(b);
          assert a.grant.id != x.grant.id;
        }
      }
    }
  }

  // ---- Ordering keeps ids unique ----

  /** Distinct ids survive any rearrangement. */
  lemma {:induction false} UniquePermutes(a: seq<Active>, b: seq<Active>)
    requires UniqueActive(a) && multiset(a) == multiset(b)
    ensures UniqueActive(b)
  {
    assert NoRepeats(a);
    NoRepeatsPermutes(a, b);
    forall i, j | 0 <= i < j < |b|
      ensures b[i].grant.id != b[j].grant.id
    {
      assert b[i] in multiset(a) && b[j] in multiset(a);
      assert b[i] in a && b[j] in a;
    }
  }

  lemma {:induction false} SortKeepsSound(inp: Inputs, st: State)
    requires Sorts(inp.sort) && Sound(inp.grants, st)
    ensures Sound(inp.grants, State(inp.sort(st.active), st.seen))
  {
    UniquePermutes(st.active, inp.sort(st.active));
    forall a | a in inp.sort(st.active)
      ensures a in st.active
    {
      assert a in multiset(inp.sort(st.active));
    }
  }

  lemma {:induction false} BurnBounds(s: seq<Active>, usage: int)
    requires NonNegative(s)
    ensures |Burn(s, usage).0| == |s|
    ensures forall i :: 0 <= i < |s| ==>
              Burn(s, usage).0[i].grant == s[i].grant && 0 <= Burn(s, usage).0[i].remaining <= s[i].remaining
  {
    BurnKeepsGrants(s, usage);
    if usage > 0 {
      forall i | 0 <= i < |s|
        ensures 0 <= Burn(s, usage).0[i].remaining <= s[i].remaining
      {
        BurnAt(s, usage, i);
      }
    }
  }

  lemma {:induction false} BurnKeepsSound(grants: seq<Grant>, st: State, usage: int)
    requires Sound(grants, st)
    ensures NonNegative(st.active)
    ensures Sound(grants, State(Burn(st.active, usage).0, st.seen))
  {
    forall i | 0 <= i < |st.active| ensures st.active[i].remaining >= 0 { assert st.active[i] in st.active; }
    BurnBounds(st.active, usage);
    var r := Burn(st.active, usage).0;
    forall a | a in r
      ensures Held(grants, st.seen, a)
    {
      var i :| 0 <= i < |r| && r[i] == a;
      assert st.active[i] in st.active;
    }
  }

  // ---- Whole steps ----

  lemma {:induction false} OpenKeepsSound(inp: Inputs, st: State, p: Period, first: bool)
    requires WellFormed(inp) && Sound(inp.grants, st)
    ensures Sound(inp.grants, Open(inp, st, p, first))
    ensures Open(inp, st, p, first).seen == st.seen + IdsDue(inp.grants, p, first)
  {
    var (admitted, marked) := Admit(inp.grants, st.seen, p, first);
    AdmitFacts(inp.grants, st.seen, p, first);
    var both := st.active + admitted;
    assert UniqueActive(both) by {
      forall i, j | 0 <= i < j < |both|
        ensures both[i].grant.id != both[j].grant.id
      {
        if i < |st.active| <= j {
          assert st.active[i] in st.active && admitted[j - |st.active|] in admitted;
        }
      }
    }
    forall a | a in both
      ensures Held(inp.grants, marked, a)
    {
      if a in admitted {
        var k :| 0 <= k < |inp.grants| && inp.grants[k] == a.grant;
      }
    }
    PruneFacts(both, p.from);
  }

  lemma {:induction false} SpendKeepsSound(inp: Inputs, st: State, p: Period, first: bool, upTo: Time)
    requires WellFormed(inp) && Sound(inp.grants, st)
    ensures var ready := Open(inp, st, p, first);
            && Sound(inp.grants, State(Spend(inp, st, p, first, upTo).0, ready.seen))
            && Sound(inp.grants, State(inp.sort(ready.active), ready.seen))
            && NonNegative(inp.sort(ready.active))
  {
    var ready := Open(inp, st, p, first);
    OpenKeepsSound(inp, st, p, first);
    SortKeepsSound(inp, ready);
    BurnKeepsSound(inp.grants, State(inp.sort(ready.active), ready.seen), inp.usage(p.from, upTo));
  }

  /** Which credit pays first: while a grant of lower priority number, or of equal priority and
      earlier effective time, has anything left, no grant after it is touched. */
  lemma {:induction false} CheapestFirst(inp: Inputs, st: State, p: Period, first: bool, upTo: Time, i: nat, j: nat)
    requires WellFormed(inp) && Sound(inp.grants, st) && inp.usage(p.from, upTo) >= 0
    requires var s := inp.sort(Open(inp, st, p, first).active);
             i < |s| && j < |s|
             && (s[i].grant.priority < s[j].grant.priority
                 || (s[i].grant.priority == s[j].grant.priority && s[i].grant.effectiveAt < s[j].grant.effectiveAt))
    ensures var s, r := inp.sort(Open(inp, st, p, first).active), Spend(inp, st, p, first, upTo).0;
            |r| == |s| && (r[j].remaining < s[j].remaining ==> r[i].remaining == 0)
  {
    SpendKeepsSound(inp, st, p, first, upTo);
    var s := inp.sort(Open(inp, st, p, first).active);
    assert Ordered(s) && i < j;
    BurnInOrder(s, inp.usage(p.from, upTo), i, j);
  }

  lemma {:induction false} CloseKeepsSound(inp: Inputs, st: State, p: Period, first: bool)
    requires WellFormed(inp) && Sound(inp.grants, st)
    ensures Sound(inp.grants, Close(inp, st, p, first))
    ensures Close(inp, st, p, first).seen == st.seen + IdsDue(inp.grants, p, first)
    ensures forall b :: b in Close(inp, st, p, first).active ==>
              b.remaining > 0 && !Expired(b.grant, p.to)
              && (b.grant.rolloverMax.Some? ==> b.remaining <= b.grant.rolloverMax.value)
  {
    OpenKeepsSound(inp, st, p, first);
    SpendKeepsSound(inp, st, p, first, p.to);
    var spent := Spend(inp, st, p, first, p.to).0;
    RollFacts(spent, p.to);
    forall b | b in Roll(spent, p.to)
      ensures Held(inp.grants, Open(inp, st, p, first).seen, b)
      ensures b.remaining > 0 && !Expired(b.grant, p.to)
      ensures b.grant.rolloverMax.Some? ==> b.remaining <= b.grant.rolloverMax.value
    {
      var a :| a in spent && Carry(a, p.to) == Some(b);
    }
  }

  lemma {:induction false} StateAtSound(inp: Inputs, periods: seq<Period>, start: nat, st0: State, j: nat)
    requires WellFormed(inp) && start <= j <= |periods| && Sound(inp.grants, st0)
    ensures Sound(inp.grants, StateAt(inp, periods, start, st0, j))
    ensures j > start ==> forall b :: b in StateAt(inp, periods, start, st0, j).active ==>
              b.remaining > 0 && !Expired(b.grant, periods[j - 1].to)
              && (b.grant.rolloverMax.Some? ==> b.remaining <= b.grant.rolloverMax.value)
    decreases j
  {
    if start < j {
      StateAtSound(inp, periods, start, st0, j - 1);
      CloseKeepsSound(inp, StateAt(inp, periods, start, st0, j - 1), periods[j - 1], j - 1 == start);
    }
  }

  // ---- Who has been admitted ----

  function IdsBefore(grants: seq<Grant>, t: Time): set<Id> {
    set g | g in grants && g.effectiveAt < t :: g.id
  }

  lemma {:induction false} IdsSplit(grants: seq<Grant>, p: Period)
    requires p.from < p.to
    ensures IdsBefore(grants, p.to) == IdsBefore(grants, p.from) + IdsDue(grants, p, false)
    ensures IdsBefore(grants, p.to) == IdsDue(grants, p, true)
    ensures IdsBefore(grants, p.from) <= IdsBefore(grants, p.to)
  {
  }

  lemma {:induction false} CloseMarksEarlier(inp: Inputs, st: State, p: Period, first: bool)
    requires WellFormed(inp) && Sound(inp.grants, st) && p.from < p.to
    requires if first then st.seen <= IdsBefore(inp.grants, p.from) else st.seen == IdsBefore(inp.grants, p.from)
    ensures Close(inp, st, p, first).seen == IdsBefore(inp.grants, p.to)
  {
    CloseKeepsSound(inp, st, p, first);
    IdsSplit(inp.grants, p);
    hide Close, IdsBefore, IdsDue;
  }

  /** A run that started with nothing later marked has, after each boundary, marked exactly
      the grants effective before it. */
  lemma {:induction false} SeenIsBefore(inp: Inputs, periods: seq<Period>, start: nat, st0: State, j: nat)
    requires WellFormed(inp) && Contiguous(periods) && start < j <= |periods|
    requires Sound(inp.grants, st0) && st0.seen <= IdsBefore(inp.grants, periods[start].from)
    ensures StateAt(inp, periods, start, st0, j).seen == IdsBefore(inp.grants, periods[j - 1].to)
    decreases j
  {
    var k := j - 1;
    hide Close, Sound, IdsBefore;
    StateAtSound(inp, periods, start, st0, k);
    if start < k {
      SeenIsBefore(inp, periods, start, st0, k);
      assert periods[k - 1].to == periods[k].from;
    }
    CloseMarksEarlier(inp, StateAt(inp, periods, start, st0, k), periods[k], k == start);
  }
}
