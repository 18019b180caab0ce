/** Option and Result, for the source's `undefined`/null values and its raised errors. */
module Wrappers {

  /** A value that may be missing (`undefined`, `null` or `None` in the source). */
  datatype Option<+T> = None | Some(value: T)

  /** The outcome of an operation that may raise: a value, or the error it raised. */
  datatype Result<+T, +E> = Success(value: T) | Failure(error: E)
}
