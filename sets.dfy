/** Facts about finite sets that the counting in the model relies on. */
module Sets {
  /** A subset is no larger than its superset, and strictly smaller when it
      leaves an element out. */
  lemma {:induction false} SubsetCard<T>(a: set<T>, b: set<T>)
    requires a <= b
    ensures |a| <= |b|
    ensures (exists x :: x in b && x !in a) ==> |a| < |b|
  {
    if exists x :: x in b && x !in a {
      var x :| x in b && x !in a;
      assert b == (b - {x}) + {x};
      SubsetCard(a, b - {x});
    } else {
      assert a == b;
    }
  }
}
