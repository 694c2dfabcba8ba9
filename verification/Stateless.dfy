/** `calculateStatelessBalance`: totals in closed form, whatever the order of the grants. */
module Stateless {
  import opened Calendar
  import opened Ledger
  import opened Sequences
  import opened Burning

  predicate Amounts(grants: seq<Grant>) {
    forall i :: 0 <= i < |grants| ==> grants[i].amount > 0
  }

  lemma {:induction false} LiveNonNegative(grants: seq<Grant>, t: Time)
    requires Amounts(grants)
    ensures NonNegative(LiveGrants(grants, t))
  {
    if grants != [] {
      LiveNonNegative(grants[..|grants| - 1], t);
    }
  }

  lemma {:induction false} NonNegativePermutes(a: seq<Active>, b: seq<Active>)
    requires NonNegative(a) && multiset(a) == multiset(b)
    ensures NonNegative(b)
  {
    forall i | 0 <= i < |b|
      ensures b[i].remaining >= 0
    {
      assert b[i] in multiset(a);
    }
  }

  /** Total credit effective and unexpired at `t`. */
  function LiveTotal(grants: seq<Grant>, t: Time): int {
    Sum(LiveGrants(grants, t))
  }

  /** Balance, overage and access in closed form: the credit that is live at `t` less the
      usage, never negative, and what the usage exceeds it by. */
  lemma {:induction false} StatelessClosedForm(inp: Inputs, t: Time, usage: int)
    requires Sorts(inp.sort) && Amounts(inp.grants) && usage >= 0
    ensures var r := Stateless(inp, t, usage); var total := LiveTotal(inp.grants, t);
            && r.balance == Max0(total - usage)
            && r.overage == Max0(usage - total)
            && r.balance - r.overage == total - r.usage
            && (r.hasAccess <==> usage < total)
  {
    var live := LiveGrants(inp.grants, t);
    LiveNonNegative(inp.grants, t);
    NonNegativePermutes(live, inp.sort(live));
    SumPermutes(live, inp.sort(live));
    BurnOverage(inp.sort(live), usage);
  }

  lemma {:induction false} LiveAppend(a: seq<Grant>, b: seq<Grant>, t: Time)
    ensures LiveGrants(a + b, t) == LiveGrants(a, t) + LiveGrants(b, t)
  {
    if b == [] {
      assert a + b == a;
    } else {
      LiveAppend(a, b[..|b| - 1], t);
      assert (a + b)[..|a + b| - 1] == a + b[..|b| - 1];
    }
  }

  lemma {:induction false} SingleLive(g: Grant, t: Time)
    ensures Sum(LiveGrants([g], t)) == if LiveAt(g, t) then g.amount else 0
  {
  }

  lemma {:induction false} LiveTotalSplit(s: seq<Grant>, k: nat, t: Time)
    requires k < |s|
    ensures LiveTotal(s, t) == LiveTotal(s[..k] + s[k + 1..], t) + if LiveAt(s[k], t) then s[k].amount else 0
  {
    LiveAppend(s[..k], [s[k]], t);
    LiveAppend(s[..k] + [s[k]], s[k + 1..], t);
    LiveAppend(s[..k], s[k + 1..], t);
    assert s == s[..k] + [s[k]] + s[k + 1..];
    var front, mid, back := LiveGrants(s[..k], t), LiveGrants([s[k]], t), LiveGrants(s[k + 1..], t);
    SumAppend(front + mid, back);
    SumAppend(front, mid);
    SumAppend(front, back);
    SingleLive(s[k], t);
  }

  lemma {:induction false} LiveTotalPermutes(a: seq<Grant>, b: seq<Grant>, t: Time)
    requires multiset(a) == multiset(b)
    ensures LiveTotal(a, t) == LiveTotal(b, t)
  {
    if a == [] {
      SameSize(a, b);
    } else {
      var k := Match(a, b);
      LiveTotalPermutes(a[..|a| - 1], b[..k] + b[k + 1..], t);
      LiveTotalSplit(b, k, t);
      LiveTotalSplit(a, |a| - 1, t);
      assert a[..|a| - 1] + a[|a|..] == a[..|a| - 1];
    }
  }

  /** Neither the order of the grants nor the way ties are broken changes the answer. */
  lemma {:induction false} StatelessOrderFree(a: Inputs, b: Inputs, t: Time, usage: int)
    requires Sorts(a.sort) && Sorts(b.sort) && usage >= 0
    requires Amounts(a.grants) && Amounts(b.grants) && multiset(a.grants) == multiset(b.grants)
    ensures Stateless(a, t, usage) == Stateless(b, t, usage)
  {
    StatelessClosedForm(a, t, usage);
    StatelessClosedForm(b, t, usage);
    LiveTotalPermutes(a.grants, b.grants, t);
  }
}
