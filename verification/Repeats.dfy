/** Order-preserving removal of repeats. */
module Repeats {

  /** Only the first occurrence of each element. */
  function WithoutRepeats<T(==,!new)>(xs: seq<T>): (ys: seq<T>)
    ensures forall x :: x in xs <==> x in ys
    ensures forall i, j | 0 <= i < j < |ys| :: ys[i] != ys[j]
  {
    if xs == [] then []
    else
      var earlier, last := WithoutRepeats(xs[..|xs| - 1]), xs[|xs| - 1];
      assert xs == xs[..|xs| - 1] + [last];
      if last in earlier then earlier else earlier + [last]
  }

  lemma OneMore<T(!new)>(xs: seq<T>, x: T)
    ensures WithoutRepeats(xs + [x]) == WithoutRepeats(xs) + if x in xs then [] else [x]
  {
    assert (xs + [x])[..|xs|] == xs;
  }

  lemma {:induction false} MoreKeepsPrefix<T(!new)>(xs: seq<T>, ys: seq<T>)
    ensures WithoutRepeats(xs) <= WithoutRepeats(xs + ys)
  {
    if ys == [] {
      assert xs + ys == xs;
    } else {
      var n := |ys| - 1;
      MoreKeepsPrefix(xs, ys[..n]);
      assert xs + ys == (xs + ys[..n]) + [ys[n]];
      OneMore(xs + ys[..n], ys[n]);
    }
  }
}
