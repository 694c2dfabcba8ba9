/** The ordering step: `sort.Slice` on (priority, effectiveAt). Insertion, which the
    library uses for short slices, is one way to meet its promise. */
module Sorting {
  import opened Ledger
  import opened Sequences

  /** Move `x` left past every grant it must burn before. */
  function Insert(sorted: seq<Active>, x: Active): seq<Active> {
    if sorted == [] || !Less(x.grant, sorted[|sorted| - 1].grant) then sorted + [x]
    else Insert(sorted[..|sorted| - 1], x) + [sorted[|sorted| - 1]]
  }

  function StableSort(s: seq<Active>): seq<Active> {
    if s == [] then [] else Insert(StableSort(s[..|s| - 1]), s[|s| - 1])
  }

  lemma {:induction false} InsertPermutes(sorted: seq<Active>, x: Active)
    ensures multiset(Insert(sorted, x)) == multiset(sorted) + multiset{x}
  {
    if sorted != [] && Less(x.grant, sorted[|sorted| - 1].grant) {
      InsertPermutes(sorted[..|sorted| - 1], x);
      Pop(sorted);
    }
  }

  lemma {:induction false} InsertOrders(sorted: seq<Active>, x: Active)
    requires Ordered(sorted)
    ensures Ordered(Insert(sorted, x))
  {
    if sorted != [] && Less(x.grant, sorted[|sorted| - 1].grant) {
      var front, last := sorted[..|sorted| - 1], sorted[|sorted| - 1];
      InsertOrders(front, x);
      InsertPermutes(front, x);
      var r := Insert(front, x);
      forall i | 0 <= i < |r|
        ensures !Less(last.grant, r[i].grant)
      {
        assert r[i] in multiset(r);
        assert r[i] in multiset(front) || r[i] == x;
      }
    }
  }

  lemma {:induction false} StableSortMeets(s: seq<Active>)
    ensures Ordered(StableSort(s)) && multiset(StableSort(s)) == multiset(s)
  {
    if s != [] {
      StableSortMeets(s[..|s| - 1]);
      InsertPermutes(StableSort(s[..|s| - 1]), s[|s| - 1]);
      InsertOrders(StableSort(s[..|s| - 1]), s[|s| - 1]);
      Pop(s);
    }
  }

  /** Insertion keeps the promise of `sort.Slice`. */
  lemma {:induction false} StableSortSorts()
    ensures Sorts(StableSort)
  {
    forall s: seq<Active>
      ensures Ordered(StableSort(s)) && multiset(StableSort(s)) == multiset(s)
    {
      StableSortMeets(s);
    }
  }

  predicate SameKey(g: Grant, h: Grant) {
    g.priority == h.priority && g.effectiveAt == h.effectiveAt
  }

  /** No two grants tie in burn order. */
  predicate DistinctKeys(s: seq<Active>) {
    forall i, j :: 0 <= i < j < |s| ==> !SameKey(s[i].grant, s[j].grant)
  }

  lemma {:induction false} LastIsGreatest(a: seq<Active>, b: seq<Active>)
    requires Ordered(a) && Ordered(b) && multiset(a) == multiset(b) && |a| == |b| > 0
    requires DistinctKeys(a) && DistinctKeys(b)
    ensures a[|a| - 1] == b[|b| - 1]
  {
    var n := |a| - 1;
    assert a[n] in multiset(b) && b[n] in multiset(a);
    var i :| 0 <= i < |b| && b[i] == a[n];
    var j :| 0 <= j < |a| && a[j] == b[n];
  }

  /** Where no keys tie, the order is the same however the ties would fall. */
  lemma {:induction false} OrderIsUnique(a: seq<Active>, b: seq<Active>)
    requires Ordered(a) && Ordered(b) && multiset(a) == multiset(b)
    requires DistinctKeys(a) && DistinctKeys(b)
    ensures a == b
  {
    if a == [] {
      SameSize(a, b);
    } else {
      SameSize(a, b);
      LastIsGreatest(a, b);
      Pop(a);
      Pop(b);
      Cancel(multiset(a[..|a| - 1]), multiset(b[..|b| - 1]), b[|b| - 1]);
      OrderIsUnique(a[..|a| - 1], b[..|b| - 1]);
      assert a == a[..|a| - 1] + [a[|a| - 1]] && b == b[..|b| - 1] + [b[|b| - 1]];
    }
  }
}
