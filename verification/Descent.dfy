/** Where a measure can always be lowered until something is reached, it is reached. */
module Descent {
  /** From any good state that is not the end there is a good one lower down, and `onward` leads to it. */
  ghost predicate GoesDown<S(!new)>(good: S -> bool, end: S -> bool, left: S -> nat, onward: (S, S) -> bool) {
    && (forall a :: good(a) && !end(a) ==> exists b :: good(b) && onward(a, b) && left(b) < left(a))
    && (forall a :: good(a) ==> onward(a, a))
    && (forall a, b, c :: onward(a, b) && onward(b, c) ==> onward(a, c))
  }

  lemma Reaches<S(!new)>(good: S -> bool, end: S -> bool, left: S -> nat, onward: (S, S) -> bool, a: S) returns (z: S)
    requires GoesDown(good, end, left, onward) && good(a)
    ensures good(z) && end(z) && onward(a, z)
    decreases left(a)
  {
    if end(a) {
      z := a;
    } else {
      var b :| good(b) && onward(a, b) && left(b) < left(a);
      z := Reaches(good, end, left, onward, b);
    }
  }
}
