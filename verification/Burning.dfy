/** What burning usage does to a list of grants, in closed form. */
module Burning {
  import opened Ledger
  import opened Sequences

  predicate NonNegative(s: seq<Active>) {
    forall i :: 0 <= i < |s| ==> s[i].remaining >= 0
  }

  function Max0(x: int): nat { if x > 0 then x else 0 }

  lemma {:induction false} SumAppend(a: seq<Active>, b: seq<Active>)
    ensures Sum(a + b) == Sum(a) + Sum(b)
  {
    if b == [] {
      assert a + b == a;
    } else {
      SumAppend(a, b[..|b| - 1]);
      assert (a + b)[..|a + b| - 1] == a + b[..|b| - 1];
    }
  }

  lemma {:induction false} SumPush(s: seq<Active>, a: Active)
    ensures Sum(s + [a]) == Sum(s) + a.remaining
  {
  }

  lemma {:induction false} SumHead(s: seq<Active>)
    requires |s| > 0
    ensures Sum(s) == s[0].remaining + Sum(s[1..])
  {
    SumAppend([s[0]], s[1..]);
    assert s == [s[0]] + s[1..];
    assert [s[0]][..0] == [];
  }

  lemma {:induction false} SumNonNegative(s: seq<Active>)
    requires NonNegative(s)
    ensures Sum(s) >= 0
    ensures forall i :: 0 <= i < |s| ==> s[i].remaining <= Sum(s)
  {
    if s != [] {
      SumNonNegative(s[..|s| - 1]);
    }
  }

  lemma {:induction false} PluckSum(s: seq<Active>, k: nat)
    requires k < |s|
    ensures Sum(s) == Sum(s[..k] + s[k + 1..]) + s[k].remaining
  {
    SumAppend(s[..k], s[k + 1..]);
    SumAppend(s[..k], s[k..]);
    SumHead(s[k..]);
    assert s == s[..k] + s[k..] && s[k..][1..] == s[k + 1..];
  }

  lemma {:induction false} SumPermutes(a: seq<Active>, b: seq<Active>)
    requires multiset(a) == multiset(b)
    ensures Sum(a) == Sum(b)
  {
    if a == [] {
      SameSize(a, b);
    } else {
      var k := Match(a, b);
      PluckSum(b, k);
      SumPermutes(a[..|a| - 1], b[..k] + b[k + 1..]);
    }
  }

  /** Burning changes remaining amounts only. */
  lemma {:induction false} BurnKeepsGrants(s: seq<Active>, usage: int)
    ensures |Burn(s, usage).0| == |s|
    ensures forall i :: 0 <= i < |s| ==> Burn(s, usage).0[i].grant == s[i].grant
  {
    if s != [] && usage > 0 && s[0].remaining < usage {
      BurnKeepsGrants(s[1..], usage - s[0].remaining);
    }
  }

  /** The usage covered is exactly the credit taken, whatever the signs. */
  lemma {:induction false} BurnConserves(s: seq<Active>, usage: int)
    ensures Sum(s) - Sum(Burn(s, usage).0) == usage - Burn(s, usage).1
  {
    if s != [] && usage > 0 {
      SumHead(s);
      var r := Burn(s, usage).0;
      SumHead(r);
      if s[0].remaining >= usage {
        assert r[1..] == s[1..];
      } else {
        BurnConserves(s[1..], usage - s[0].remaining);
        assert r[1..] == Burn(s[1..], usage - s[0].remaining).0;
      }
    }
  }

  /** What is left of grant i: it pays for the usage that the grants before it did not cover. */
  lemma {:induction false} BurnAt(s: seq<Active>, usage: int, i: nat)
    requires NonNegative(s) && usage >= 0 && i < |s|
    ensures |Burn(s, usage).0| == |s|
    ensures Burn(s, usage).0[i].remaining == Max0(s[i].remaining - Max0(usage - Sum(s[..i])))
  {
    BurnKeepsGrants(s, usage);
    SumNonNegative(s[..i]);
    if usage > 0 && i > 0 {
      SumHead(s[..i]);
      assert s[..i][1..] == s[1..][..i - 1];
      SumNonNegative(s[1..][..i - 1]);
      if s[0].remaining < usage {
        BurnAt(s[1..], usage - s[0].remaining, i - 1);
      }
    }
  }

  /** After burning, the first i grants together hold max(0, prefix sum - usage). */
  lemma {:induction false} BurnPrefix(s: seq<Active>, usage: int, i: nat)
    requires NonNegative(s) && usage >= 0 && i <= |s|
    ensures |Burn(s, usage).0| == |s| && NonNegative(Burn(s, usage).0)
    ensures Sum(Burn(s, usage).0[..i]) == Max0(Sum(s[..i]) - usage)
  {
    BurnKeepsGrants(s, usage);
    var r := Burn(s, usage).0;
    hide Burn;
    forall j | 0 <= j < |s| ensures r[j].remaining >= 0 { BurnAt(s, usage, j); }
    if i == 0 {
      assert s[..0] == [] && r[..0] == [];
    } else {
      BurnPrefix(s, usage, i - 1);
      BurnAt(s, usage, i - 1);
      SumNonNegative(s[..i - 1]);
      assert s[..i][..i - 1] == s[..i - 1] && r[..i][..i - 1] == r[..i - 1];
    }
  }

  /** The overage is what the grants together could not cover; credit left over means
      there was none. */
  lemma {:induction false} BurnOverage(s: seq<Active>, usage: int)
    requires NonNegative(s) && usage >= 0
    ensures Burn(s, usage).1 == Max0(usage - Sum(s))
    ensures Sum(Burn(s, usage).0) == Max0(Sum(s) - usage)
    ensures Sum(Burn(s, usage).0) > 0 ==> Burn(s, usage).1 == 0
  {
    BurnPrefix(s, usage, |s|);
    BurnConserves(s, usage);
    assert s[..|s|] == s && Burn(s, usage).0[..|s|] == Burn(s, usage).0;
  }

  lemma {:induction false} PrefixSumGrows(s: seq<Active>, i: nat, j: nat)
    requires NonNegative(s) && i <= j <= |s|
    ensures Sum(s[..i]) <= Sum(s[..j])
  {
    if i < j {
      PrefixSumGrows(s, i, j - 1);
      assert s[..j][..j - 1] == s[..j - 1];
    }
  }

  /** A grant is touched only once every grant before it is empty. */
  lemma {:induction false} BurnInOrder(s: seq<Active>, usage: int, i: nat, j: nat)
    requires NonNegative(s) && usage >= 0 && i < j < |s|
    ensures |Burn(s, usage).0| == |s|
    ensures Burn(s, usage).0[j].remaining < s[j].remaining ==> Burn(s, usage).0[i].remaining == 0
  {
    BurnAt(s, usage, i);
    BurnAt(s, usage, j);
    PrefixSumGrows(s, i + 1, j);
    assert s[..i + 1][..i] == s[..i];
  }
}
