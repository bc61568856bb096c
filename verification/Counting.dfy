/** Facts about the size of finite sets. */
module Counting {
  lemma SubsetCount<T>(a: set<T>, b: set<T>)
    requires a <= b
    ensures |a| <= |b|
  {
    assert b == a + (b - a);
  }

  /** A set that maps one-to-one into another is no larger. */
  lemma {:induction false} InjectionCount(a: set<nat>, b: set<nat>, f: nat -> nat)
    requires forall x :: x in a ==> f(x) in b
    requires forall x, y :: x in a && y in a && f(x) == f(y) ==> x == y
    ensures |a| <= |b|
    decreases |a|
  {
    if a != {} {
      var x :| x in a;
      InjectionCount(a - {x}, b - {f(x)}, f);
      assert b == b - {f(x)} + {f(x)};
    }
  }
}
