/** Small definitions shared by the models. */
module Prelude {
  datatype Option<+T> = None | Some(value: T)

  /** No value stands in two places. */
  ghost predicate NoDup<T(!new)>(s: seq<T>) {
    forall i, j :: 0 <= i < j < |s| ==> s[i] != s[j]
  }
}
