// Stock of the other modules: a value that may be missing, concatenation,
// sequences without repetition.
module Wrappers {
  datatype Option<+T> = None | Some(value: T)

  lemma Associative<T>(x: seq<T>, y: seq<T>, z: seq<T>)
    ensures x + (y + z) == (x + y) + z
  {
  }

  ghost predicate Distinct(s: seq<nat>) { forall i, j :: 0 <= i < j < |s| ==> s[i] != s[j] }
}
