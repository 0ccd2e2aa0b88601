/**
 * `Array.prototype.filter` as the pages use it: the elements that pass a
 * test, in their original order.
 */
module Seqs {

  /** `xs.filter(keep)`: never longer than `xs`, and holding exactly the elements that pass. */
  function Filter<T(==, !new)>(keep: T -> bool, xs: seq<T>): (kept: seq<T>)
    ensures |kept| <= |xs|
    ensures forall x :: x in kept <==> x in xs && keep(x)
    decreases |xs|
  {
    if xs == [] then []
    else (if keep(xs[0]) then [xs[0]] else []) + Filter(keep, xs[1..])
  }

  /** Filtering keeps relative order: it distributes over concatenation. */
  lemma {:induction false} FilterAppend<T(!new)>(keep: T -> bool, a: seq<T>, b: seq<T>)
    ensures Filter(keep, a + b) == Filter(keep, a) + Filter(keep, b)
    decreases |a|
  {
    if a == [] {
      assert a + b == b;
    } else {
      assert (a + b)[0] == a[0];
      assert (a + b)[1..] == a[1..] + b;
      FilterAppend(keep, a[1..], b);
    }
  }

  /** Nothing is dropped when every element passes. */
  lemma {:induction false} FilterAll<T(!new)>(keep: T -> bool, xs: seq<T>)
    requires forall i :: 0 <= i < |xs| ==> keep(xs[i])
    ensures Filter(keep, xs) == xs
    decreases |xs|
  {
    if xs != [] {
      FilterAll(keep, xs[1..]);
    }
  }
}
