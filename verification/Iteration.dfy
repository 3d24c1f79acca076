/** Iteration over Go maps, whose order the language leaves open. */
module Iteration {

  lemma NonEmpty<T>(s: set<T>)
    ensures s == {} <==> forall k :: k !in s
  {}

  lemma Some<T>(s: set<T>) returns (x: T)
    requires s != {}
    ensures x in s
  {
    NonEmpty(s);
    x :| x in s;
  }

  // The next key of a `range` loop: any one of those left.
  method Next<T(==)>(left: set<T>) returns (k: T)
    requires left != {}
    ensures k in left
  {
    NonEmpty(left);
    k :| k in left;
  }
}
