/** Sizes of sets that grow one element at a time. */
module Counting {
  lemma OneMore<T>(few: set<T>, more: set<T>, x: T, holds: bool)
    requires x !in few && forall y :: y in more <==> y in few || (y == x && holds)
    ensures |more| == |few| + if holds then 1 else 0
  {
    assert more == few + if holds then {x} else {};
  }

  /** Putting a number in front of each element keeps how many there are. */
  lemma {:induction false} TagKeepsSize<T>(n: nat, s: set<T>, tagged: set<(nat, T)>)
    requires tagged == set x | x in s :: (n, x)
    ensures |tagged| == |s|
  {
    if s != {} {
      var x :| x in s;
      TagKeepsSize(n, s - {x}, tagged - {(n, x)});
    }
  }
}
