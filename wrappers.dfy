/** Option and Result, the two failure-carrying values the model uses. */
module Wrappers {

  /** A value that may be absent: JavaScript's `undefined`/`null` next to a value. */
  datatype Option<+T> = None | Some(value: T)

  /** The outcome of a step that either yields a value or stops with an error message. */
  datatype Result<+T, +E> = Success(value: T) | Failure(error: E)
}
