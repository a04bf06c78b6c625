/** Small datatypes and predicates shared by every component of the model. */
module Prelude {

  datatype Option<+T> = None | Some(value: T)

  function Min(a: int, b: int): int {
    if a <= b then a else b
  }

  // first, second, first, second, ...
  predicate Alternates<T(==)>(s: seq<T>, first: T, second: T) {
    forall i :: 0 <= i < |s| ==> s[i] == if i % 2 == 0 then first else second
  }

  lemma {:induction false} SubsetSize<A>(a: set<A>, b: set<A>)
    requires a <= b
    ensures |a| <= |b|
    decreases a
  {
    if a != {} {
      var x :| x in a;
      SubsetSize(a - {x}, b - {x});
    }
  }
}
