/** Sizes of sets, and of the set of a sequence's elements. */
module Counting {

  lemma {:induction false} SubsetSize<T>(a: set<T>, b: set<T>)
    requires a <= b
    ensures |a| <= |b|
  {
    if a != {} {
      var x :| x in a;
      SubsetSize(a - {x}, b - {x});
    }
  }

  lemma SetOfLast<T>(xs: seq<T>, last: nat)
    requires last + 1 == |xs|
    ensures (set x | x in xs) == (set x | x in xs[..last]) + {xs[last]}
  {
    assert xs == xs[..last] + [xs[last]];
  }

  /** A sequence has at most as many elements as its length. */
  lemma {:induction false} ElementsFit<T>(xs: seq<T>)
    ensures |set x | x in xs| <= |xs|
  {
    if xs != [] {
      var last := |xs| - 1;
      SetOfLast(xs, last);
      ElementsFit(xs[..last]);
    }
  }

  /** And exactly as many when none repeats. */
  lemma {:induction false} DistinctCount<T>(xs: seq<T>)
    requires forall i, j | 0 <= i < j < |xs| :: xs[i] != xs[j]
    ensures |set x | x in xs| == |xs|
  {
    if xs != [] {
      var last := |xs| - 1;
      DistinctCount(xs[..last]);
      SetOfLast(xs, last);
      assert xs[last] !in xs[..last];
    }
  }

  lemma {:induction false} CountedAreDistinct<T>(xs: seq<T>)
    requires |set x | x in xs| == |xs|
    ensures forall i, j | 0 <= i < j < |xs| :: xs[i] != xs[j]
  {
    if xs != [] {
      var last := |xs| - 1;
      var before := set x | x in xs[..last];
      SetOfLast(xs, last);
      ElementsFit(xs[..last]);
      assert xs[last] !in before;
      CountedAreDistinct(xs[..last]);
    }
  }
}
