/** The ORDER BY of a query: a stable insertion sort. */
module Sorting {

  function Insert<T>(x: T, ys: seq<T>, leq: (T, T) -> bool): (r: seq<T>)
    ensures multiset(r) == multiset{x} + multiset(ys)
  {
    if ys == [] || leq(x, ys[0]) then [x] + ys
    else
      assert ys == [ys[0]] + ys[1..];
      [ys[0]] + Insert(x, ys[1..], leq)
  }

  function Sort<T>(xs: seq<T>, leq: (T, T) -> bool): (r: seq<T>)
    ensures multiset(r) == multiset(xs)
    ensures |r| == |xs|
  {
    if xs == [] then []
    else
      assert xs == [xs[0]] + xs[1..];
      var r := Insert(xs[0], Sort(xs[1..], leq), leq);
      assert |r| == |multiset(r)| && |xs| == |multiset(xs)|;
      r
  }

  ghost predicate Sorted<T>(xs: seq<T>, leq: (T, T) -> bool) {
    forall i, j | 0 <= i < j < |xs| :: leq(xs[i], xs[j])
  }

  ghost predicate TotalPreorder<T(!new)>(leq: (T, T) -> bool) {
    && (forall x, y :: leq(x, y) || leq(y, x))
    && (forall x, y, z :: leq(x, y) && leq(y, z) ==> leq(x, z))
  }

  lemma {:induction false} InsertKeepsSorted<T(!new)>(x: T, ys: seq<T>, leq: (T, T) -> bool)
    requires TotalPreorder(leq) && Sorted(ys, leq)
    ensures Sorted(Insert(x, ys, leq), leq)
  {
    var r := Insert(x, ys, leq);
    if ys == [] {
    } else if leq(x, ys[0]) {
      forall j | 0 < j < |r| ensures leq(x, r[j]) {
        assert r[j] == ys[j - 1];
        if j > 1 {
          assert leq(ys[0], ys[j - 1]);
        }
      }
    } else {
      var rest := Insert(x, ys[1..], leq);
      InsertKeepsSorted(x, ys[1..], leq);
      forall j | 0 < j < |r| ensures leq(ys[0], r[j]) {
        assert r[j] == rest[j - 1] && rest[j - 1] in multiset(rest);
        if rest[j - 1] != x {
          assert rest[j - 1] in ys[1..];
          var k :| 0 <= k < |ys| - 1 && ys[1..][k] == rest[j - 1];
          assert leq(ys[0], ys[k + 1]);
        }
      }
    }
  }

  lemma {:induction false} SortSorts<T(!new)>(xs: seq<T>, leq: (T, T) -> bool)
    requires TotalPreorder(leq)
    ensures Sorted(Sort(xs, leq), leq)
  {
    if xs != [] {
      SortSorts(xs[1..], leq);
      InsertKeepsSorted(xs[0], Sort(xs[1..], leq), leq);
    }
  }

  lemma SortKeepsMembers<T(!new)>(xs: seq<T>, leq: (T, T) -> bool)
    ensures forall x :: x in Sort(xs, leq) <==> x in xs
  {
    forall x ensures x in Sort(xs, leq) <==> x in xs {
      assert x in multiset(Sort(xs, leq)) <==> x in multiset(xs);
    }
  }

  /** Rows already in order come back unmoved. */
  lemma {:induction false} SortedIsFixed<T>(xs: seq<T>, leq: (T, T) -> bool)
    requires Sorted(xs, leq)
    ensures Sort(xs, leq) == xs
  {
    if xs != [] {
      assert forall i | 0 <= i < |xs| - 1 :: xs[1..][i] == xs[i + 1];
      SortedIsFixed(xs[1..], leq);
      assert xs == [xs[0]] + xs[1..];
      if |xs| > 1 {
        assert leq(xs[0], xs[1]);
      }
    }
  }
}
