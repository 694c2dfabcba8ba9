/** Multisets of sequence elements. */
module Sequences {

  /** The elements of a sequence are its last one and the rest. */
  lemma {:induction false} Pop<T>(s: seq<T>)
    requires |s| > 0
    ensures multiset(s) == multiset(s[..|s| - 1]) + multiset{s[|s| - 1]}
  {
    assert s == s[..|s| - 1] + [s[|s| - 1]];
  }

  lemma {:induction false} Pluck<T>(s: seq<T>, k: nat)
    requires k < |s|
    ensures multiset(s) == multiset(s[..k] + s[k + 1..]) + multiset{s[k]}
  {
    assert s == s[..k] + [s[k]] + s[k + 1..];
  }

  lemma {:induction false} Cancel<T>(a: multiset<T>, b: multiset<T>, x: T)
    requires a + multiset{x} == b + multiset{x}
    ensures a == b
  {
    assert a == (a + multiset{x}) - multiset{x};
    assert b == (b + multiset{x}) - multiset{x};
  }

  /** Find the last element of `a` in a permutation `b` and take it out of both. */
  lemma {:induction false} Match<T>(a: seq<T>, b: seq<T>) returns (k: nat)
    requires |a| > 0 && multiset(a) == multiset(b)
    ensures k < |b| && b[k] == a[|a| - 1]
    ensures multiset(a[..|a| - 1]) == multiset(b[..k] + b[k + 1..])
  {
    Pop(a);
    assert a[|a| - 1] in multiset(b);
    k :| 0 <= k < |b| && b[k] == a[|a| - 1];
    Pluck(b, k);
    Cancel(multiset(a[..|a| - 1]), multiset(b[..k] + b[k + 1..]), b[k]);
  }

  lemma {:induction false} SameSize<T>(a: seq<T>, b: seq<T>)
    requires multiset(a) == multiset(b)
    ensures |a| == |b|
  {
    assert |a| == |multiset(a)| == |multiset(b)| == |b|;
  }

  predicate NoRepeats<T(==)>(s: seq<T>) {
    forall i, j :: 0 <= i < j < |s| ==> s[i] != s[j]
  }

  lemma {:induction false} NoRepeatsCount<T>(s: seq<T>, x: T)
    requires NoRepeats(s)
    ensures multiset(s)[x] <= 1
  {
    if s != [] {
      NoRepeatsCount(s[..|s| - 1], x);
      Pop(s);
      assert s[|s| - 1] !in s[..|s| - 1];
    }
  }

  lemma {:induction false} RepeatCount<T>(s: seq<T>, i: nat, j: nat)
    requires i < j < |s| && s[i] == s[j]
    ensures multiset(s)[s[i]] >= 2
  {
    Pluck(s, j);
    assert (s[..j] + s[j + 1..])[i] == s[i];
  }

  /** A permutation of a sequence without repeats has none. */
  lemma {:induction false} NoRepeatsPermutes<T>(a: seq<T>, b: seq<T>)
    requires NoRepeats(a) && multiset(a) == multiset(b)
    ensures NoRepeats(b)
  {
    forall i, j | 0 <= i < j < |b|
      ensures b[i] != b[j]
    {
      if b[i] == b[j] {
        RepeatCount(b, i, j);
        NoRepeatsCount(a, b[i]);
      }
    }
  }

  /** Two sequences of the same elements, none of them twice, permute each other. */
  lemma {:induction false} SameElementsPermute<T>(a: seq<T>, b: seq<T>)
    requires NoRepeats(a) && NoRepeats(b) && forall x :: x in a <==> x in b
    ensures multiset(a) == multiset(b)
  {
    forall x: T
      ensures multiset(a)[x] == multiset(b)[x]
    {
      NoRepeatsCount(a, x);
      NoRepeatsCount(b, x);
      assert x in a <==> x in multiset(a);
      assert x in b <==> x in multiset(b);
    }
  }
}
