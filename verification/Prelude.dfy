/** Failure-compatible wrappers and the one sequence predicate shared by the other modules. */
module Prelude {

  datatype Option<+T> = None | Some(value: T)

  /** A store or core operation that either yields a value or raises and rolls its transaction back. */
  datatype Result<+T> = Ok(value: T) | Raised

  /** No two positions of `s` hold the same element. */
  ghost predicate NoDup<T>(s: seq<T>) {
    forall i, j :: 0 <= i < j < |s| ==> s[i] != s[j]
  }
}
