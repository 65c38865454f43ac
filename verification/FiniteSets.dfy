/** Finite sets: their cardinalities, and the sets that lists enumerate. */
module FiniteSets {
  function Members<T(==)>(s: seq<T>): set<T> { set x | x in s }

  predicate Distinct<T(==)>(s: seq<T>) { forall i, j :: 0 <= i < j < |s| ==> s[i] != s[j] }

  lemma SubsetSize<T>(a: set<T>, b: set<T>)
    requires a <= b
    ensures |a| <= |b|
  {
    assert b == a + (b - a);
  }

  lemma NothingMissing<T>(a: set<T>, b: set<T>)
    ensures a - b == {} <==> a <= b
  {
    forall x | x in a ensures x in b || x in a - b { }
  }

  /** The elements of a set in some order. */
  method InSomeOrder<T(==)>(s: set<T>) returns (list: seq<T>)
    ensures Distinct(list) && Members(list) == s
  {
    list := [];
    var left := s;
    while left != {}
      invariant Distinct(list)
      invariant left <= s
      invariant Members(list) == s - left
    {
      var x :| x in left;
      assert x !in Members(list);
      ghost var was := list;
      list, left := list + [x], left - {x};
      assert Members(list) == Members(was) + {x};
    }
  }
}
