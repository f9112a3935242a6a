/** Failure-carrying datatypes and small facts shared by every component of the model. */
module Wrappers {

  datatype Option<+T> = None | Some(value: T)

  datatype Result<+T, +E> = Ok(value: T) | Err(error: E)

  predicate Space(c: char) { c in {' ', '\t', '\n', '\r'} }

  predicate Blank(text: string) { forall i :: 0 <= i < |text| ==> Space(text[i]) }

  lemma SubsetSize<T>(a: set<T>, b: set<T>)
    requires a <= b
    ensures |a| <= |b|
  {
    assert b == a + (b - a);
  }
}
