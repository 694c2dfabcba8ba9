/** The grants a snapshot leaves out: drained or capped to nothing, they come back whole. */
module Drained {
  import opened Options
  import opened Calendar
  import opened Periods
  import opened Ledger
  import opened Burning
  import opened Stateless
  import opened Soundness
  import opened Seeding

  /** The amounts of the grants live at a boundary that a snapshot of it leaves out. */
  function UnlistedTotal(grants: seq<Grant>, listed: set<Id>, at: Time): int {
    if grants == [] then 0
    else
      var g := grants[|grants| - 1];
      UnlistedTotal(grants[..|grants| - 1], listed, at)
      + if g.effectiveAt < at && !Expired(g, at) && g.id !in listed then g.amount else 0
  }

  /** Nothing is left out exactly if the total is zero; what is left out counts whole. */
  lemma {:induction false} UnlistedTotalIs(grants: seq<Grant>, listed: set<Id>, at: Time)
    requires forall g :: g in grants ==> g.amount > 0
    ensures UnlistedTotal(grants, listed, at) >= 0
    ensures forall g :: g in grants && g.effectiveAt < at && !Expired(g, at) && g.id !in listed ==>
              g.amount <= UnlistedTotal(grants, listed, at)
    ensures UnlistedTotal(grants, listed, at) == 0
            <==> forall g :: g in grants && g.effectiveAt < at && !Expired(g, at) ==> g.id in listed
  {
    if grants != [] {
      var front, last := grants[..|grants| - 1], grants[|grants| - 1];
      assert forall g :: g in grants <==> g in front || g == last;
      UnlistedTotalIs(front, listed, at);
    }
  }

  /** What the last grant adds to either run. */
  lemma {:induction false} LastAdds(all: seq<Grant>, n: nat, listed: set<Id>, p: Period)
    requires UniqueIds(all) && 0 < n <= |all| && p.from < p.to && listed <= IdsBefore(all, p.from)
    ensures var front, g := all[..n - 1], all[n - 1];
            && Sum(Prune(Admit(all[..n], listed, p, true).0, p.from))
               == Sum(Prune(Admit(front, listed, p, true).0, p.from))
                  + (if g.id !in listed && g.effectiveAt < p.to && !Expired(g, p.from) then g.amount else 0)
            && Sum(Prune(Admit(all[..n], IdsBefore(all, p.from), p, false).0, p.from))
               == Sum(Prune(Admit(front, IdsBefore(all, p.from), p, false).0, p.from))
                  + (if p.from <= g.effectiveAt < p.to && !Expired(g, p.from) then g.amount else 0)
  {
    var front, g := all[..n - 1], all[n - 1];
    assert all[..n][..n - 1] == front && all[..n][n - 1] == g;
    LastLate(all, n, listed, p);
    LastAdmission(all[..n], listed, p, true);
    LastAdmission(all[..n], IdsBefore(all, p.from), p, false);
    hide Admit, Prune, Sum, IdsBefore, UniqueIds, Expired;
    SumPush(Prune(Admit(front, listed, p, true).0, p.from), Active(g, g.amount));
    SumPush(Prune(Admit(front, IdsBefore(all, p.from), p, false).0, p.from), Active(g, g.amount));
  }

  lemma {:induction false} LastUnlisted(all: seq<Grant>, n: nat, listed: set<Id>, at: Time)
    requires 0 < n <= |all|
    ensures var g := all[n - 1];
            UnlistedTotal(all[..n], listed, at)
            == UnlistedTotal(all[..n - 1], listed, at)
               + if g.effectiveAt < at && !Expired(g, at) && g.id !in listed then g.amount else 0
  {
    assert all[..n][..n - 1] == all[..n - 1];
  }

  /** What a seeded run lets in late adds up to what the replay lets in and the full amounts of
      all unlisted live grants. */
  lemma {:induction false} LateSum(all: seq<Grant>, n: nat, listed: set<Id>, p: Period)
    requires UniqueIds(all) && n <= |all| && p.from < p.to && listed <= IdsBefore(all, p.from)
    ensures Sum(Prune(Admit(all[..n], listed, p, true).0, p.from))
            == Sum(Prune(Admit(all[..n], IdsBefore(all, p.from), p, false).0, p.from))
               + UnlistedTotal(all[..n], listed, p.from)
  {
    if n > 0 {
      hide *;
      LateSum(all, n - 1, listed, p);
      LastLate(all, n, listed, p);
      LastAdds(all, n, listed, p);
      LastUnlisted(all, n, listed, p.from);
    }
  }

  /** A seeded run opens with the replay's credit and, on top, the full amount of every live grant
      the snapshot leaves out. */
  lemma {:induction false} SeededOpensRicher(inp: Inputs, st: State, p: Period)
    requires WellFormed(inp) && Sound(inp.grants, st) && p.from < p.to
    requires st.seen == IdsBefore(inp.grants, p.from)
    ensures Sum(Open(inp, State(st.active, IdsOf(st.active)), p, true).active)
            == Sum(Open(inp, st, p, false).active) + UnlistedTotal(inp.grants, IdsOf(st.active), p.from)
  {
    var all, listed := inp.grants, IdsOf(st.active);
    var late, due := Admit(all, listed, p, true).0, Admit(all, st.seen, p, false).0;
    assert listed <= st.seen;
    LateSum(all, |all|, listed, p);
    assert all[..|all|] == all;
    PruneAppend(st.active, late, p.from);
    PruneAppend(st.active, due, p.from);
    SumAppend(Prune(st.active, p.from), Prune(late, p.from));
    SumAppend(Prune(st.active, p.from), Prune(due, p.from));
    hide Admit, Prune, Sum, UnlistedTotal;
  }

  /** That is more exactly if the snapshot leaves a live grant out. */
  lemma {:induction false} RicherIffUnlisted(grants: seq<Grant>, s: seq<Active>, at: Time)
    requires Amounts(grants)
    ensures UnlistedTotal(grants, IdsOf(s), at) >= 0
    ensures UnlistedTotal(grants, IdsOf(s), at) > 0 <==> !AllListed(grants, SnapshotOf(s, at))
  {
    assert forall g :: g in grants ==> g.amount > 0;
    UnlistedTotalIs(grants, IdsOf(s), at);
    ListedIdsAre(s, at);
  }

  lemma {:induction false} AllLive(s: seq<Active>, t: Time)
    requires forall a :: a in s ==> !Expired(a.grant, t)
    ensures LiveSum(s, t) == Sum(s)
  {
    if s != [] {
      assert s[|s| - 1] in s;
      AllLive(s[..|s| - 1], t);
    }
  }

  /** At the very start of a period nothing is spent yet: the answer is what it opens with. */
  lemma {:induction false} AnswerAtStart(inp: Inputs, st: State, p: Period, first: bool)
    requires WellFormed(inp) && inp.usage(p.from, p.from) == 0
    ensures AnswerIn(inp, st, p, first, p.from).balance == Sum(Open(inp, st, p, first).active)
  {
    var ready := Open(inp, st, p, first).active;
    SumPermutes(ready, inp.sort(ready));
    PruneFacts(st.active + Admit(inp.grants, st.seen, p, first).0, p.from);
    forall a | a in inp.sort(ready)
      ensures !Expired(a.grant, p.from)
    {
      assert a in multiset(inp.sort(ready));
    }
    AllLive(inp.sort(ready), p.from);
  }

  lemma {:induction false} OneGrantAdmitted(g: Grant, p: Period)
    requires g.effectiveAt < p.to && g.expiresAt.None? && p.from < p.to
    ensures Admit([g], {}, p, true) == ([Active(g, g.amount)], {g.id})
    ensures Admit([g], {g.id}, p, false) == ([], {g.id})
    ensures Prune([Active(g, g.amount)], p.from) == [Active(g, g.amount)]
  {
    var whole := [Active(g, g.amount)];
    assert [g][..0] == [] && whole[..0] == [];
    assert Admit([], {}, p, true) == ([], {});
    assert Admit([], {g.id}, p, false) == ([], {g.id});
    assert Prune([], p.from) == [];
    assert whole == [] + whole && whole[|whole| - 1] == Active(g, g.amount);
    assert [g][|[g]| - 1] == g;
    assert {} + {g.id} == {g.id};
  }

  lemma {:induction false} SortsOne(inp: Inputs, a: Active)
    requires Sorts(inp.sort)
    ensures inp.sort([a]) == [a]
  {
  }

  lemma {:induction false} SortsNone(inp: Inputs)
    requires Sorts(inp.sort)
    ensures inp.sort([]) == []
  {
  }

  lemma {:induction false} OpensWithOne(inp: Inputs, p: Period, g: Grant)
    requires inp.grants == [g] && g.expiresAt.None? && g.effectiveAt < p.to && p.from < p.to
    requires Sorts(inp.sort)
    ensures Open(inp, FRESH, p, true) == State([Active(g, g.amount)], {g.id})
    ensures inp.sort(Open(inp, FRESH, p, true).active) == [Active(g, g.amount)]
    ensures g.effectiveAt < p.from ==> Open(inp, State([], {g.id}), p, false) == State([], {g.id})
    ensures inp.sort([]) == []
  {
    var whole := [Active(g, g.amount)];
    OneGrantAdmitted(g, p);
    var none: seq<Active> := [];
    assert none + whole == whole && none + none == none;
    SortsOne(inp, Active(g, g.amount));
    SortsNone(inp);
  }

  lemma {:induction false} FirstPeriodDrains(inp: Inputs, p: Period, g: Grant)
    requires inp.grants == [g] && g.expiresAt.None? && g.effectiveAt < p.to && p.from < p.to
    requires Sorts(inp.sort) && 0 < g.amount <= inp.usage(p.from, p.to)
    ensures Close(inp, FRESH, p, true) == State([], {g.id})
  {
    var whole, spent := [Active(g, g.amount)], [Active(g, 0)];
    OpensWithOne(inp, p, g);
    assert Burn(whole, inp.usage(p.from, p.to)).0 == spent by { assert whole[1..] == []; }
    assert Roll(spent, p.to) == [] by { assert spent[..0] == []; }
  }

  lemma {:induction false} DrainedState(inp: Inputs, ps: seq<Period>, g: Grant)
    requires Sorts(inp.sort) && Contiguous(ps) && |ps| == 2
    requires inp.grants == [g] && g.expiresAt.None? && g.effectiveAt < ps[0].to && g.amount > 0
    requires inp.usage(ps[0].from, ps[0].to) >= g.amount
    ensures StateAt(inp, ps, 0, FRESH, 1) == State([], {g.id})
    ensures Captured(inp, ps, 0, FRESH, 1) == [Snapshot(ps[1].from, 0, [])]
  {
    FirstPeriodDrains(inp, ps[0], g);
    hide Close;
    assert StateAt(inp, ps, 0, FRESH, 0) == FRESH && Captured(inp, ps, 0, FRESH, 0) == [];
    assert SnapshotOf([], ps[0].to) == Snapshot(ps[1].from, 0, []);
  }

  /** With nothing used yet the period answers with what it opens with: nothing, or the grant. */
  lemma {:induction false} GoneOrBack(inp: Inputs, p: Period, g: Grant, t: Time)
    requires Sorts(inp.sort) && p.from < p.to && inp.usage(p.from, t) == 0
    requires inp.grants == [g] && g.expiresAt.None? && g.effectiveAt < p.from
    ensures AnswerIn(inp, State([], {g.id}), p, false, t).balance == 0
    ensures AnswerIn(inp, FRESH, p, true, t).balance == g.amount
  {
    OpensWithOne(inp, p, g);
    hide Open, Sorts;
    assert LiveSum([Active(g, g.amount)], t) == g.amount by { assert [Active(g, g.amount)][..0] == []; }
  }

  lemma {:induction false} SeededWithNothing(inp: Inputs, ps: seq<Period>)
    requires Contiguous(ps) && |ps| == 2
    ensures Beginning(inp.grants, ps, Some(Snapshot(ps[1].from, 0, []))) == (1, FRESH)
  {
    assert ps[0].from < ps[0].to == ps[1].from;
    assert FindStart(ps, ps[1].from, 1) == Some(1);
  }

  /** The failing input in the small: one unexpiring grant spent in the first period is gone
      for the replay, and back at its full amount for a run seeded with the replay's snapshot. */
  lemma {:induction false} DrainedGrantReturns(inp: Inputs, ps: seq<Period>, g: Grant, t: Time)
    requires WellFormed(inp) && Contiguous(ps) && |ps| == 2
    requires inp.grants == [g] && g.expiresAt.None? && g.effectiveAt < ps[0].to
    requires inp.usage(ps[0].from, ps[0].to) >= g.amount && inp.usage(ps[1].from, t) == 0
    ensures var snap := Periodic(inp, ps, t, None).1[0];
            && snap == Snapshot(ps[1].from, 0, [])
            && Periodic(inp, ps, t, None).0.balance == 0
            && Periodic(inp, ps, t, Some(snap)).0.balance == g.amount
  {
    assert ps[0].to == ps[1].from && inp.grants[0] == g;
    DrainedState(inp, ps, g);
    GoneOrBack(inp, ps[1], g, t);
    SeededWithNothing(inp, ps);
    BeginsFresh(inp.grants, ps);
    hide AnswerIn, Captured, Beginning, Contiguous, WellFormed, Close;
    assert StateAt(inp, ps, 1, FRESH, 1) == FRESH;
  }
}
