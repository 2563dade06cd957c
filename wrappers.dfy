/** Option and Outcome: the shapes of the source's `T | null` results and of
    promises that either resolve or reject. */
module Wrappers {

  /** A value that may be absent (`null` in the source). */
  datatype Option<+T> = None | Some(value: T)

  /** The settlement of a promise that resolves with no value or rejects. */
  datatype Outcome<+E> = Pass | Fail(error: E)
}
