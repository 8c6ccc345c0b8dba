/** Small value types shared by the other modules. */
module Prelude {

  datatype Option<+T> = None | Some(value: T)

  /** No value occurs twice in the sequence. */
  ghost predicate Distinct<T>(s: seq<T>) {
    forall i, j :: 0 <= i < j < |s| ==> s[i] != s[j]
  }

  lemma SubsetSize<T>(a: set<T>, b: set<T>)
    requires a <= b
    ensures |a| <= |b|
  {
    assert b == a + (b - a);
  }
}
