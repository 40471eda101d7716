/** Picking process numbers from finite sets, and measuring how a set grows inside another. */
module Sets {
  lemma EmptyOrNot(s: set<int>)
    ensures s == {} || exists x :: x in s
  {
    if forall x :: x !in s {
      assert s == {};
    }
  }

  method AnyOf(s: set<int>) returns (x: int)
    requires s != {}
    ensures x in s
  {
    EmptyOrNot(s);
    x :| x in s;
  }

  lemma StrictSubsetIsSmaller(a: set<int>, b: set<int>)
    requires a < b
    ensures |a| < |b|
  {
    assert b == a + (b - a);
    assert |b| == |a| + |b - a|;
  }

  /** A set that grows inside `all` leaves less of it. */
  lemma RestShrinks(all: set<int>, before: set<int>, after: set<int>)
    requires before < after <= all
    ensures |all - after| < |all - before|
  {
    assert (all - before) - (all - after) == after - before;
    StrictSubsetIsSmaller(all - after, all - before);
  }
}
