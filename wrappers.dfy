/** Failure-carrying values shared by the models: the outcome of a driver step
    that produces nothing, and the result of one that produces a value. */
module Wrappers {

  datatype Option<+T> = None | Some(value: T)

  /** A step that either succeeds or raises an exception with a message. */
  datatype Outcome = Pass | Fail(message: string)

  /** A step that either yields a value or raises an exception with a message. */
  datatype Result<+T> = Ok(value: T) | Err(message: string)

  /** No element occurs twice. */
  predicate Distinct<T(==)>(s: seq<T>) {
    forall i, j :: 0 <= i < j < |s| ==> s[i] != s[j]
  }
}
