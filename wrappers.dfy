/** Absent-or-present values and results that may carry an error. */
module Wrappers {

  /** A value that may be missing: JavaScript's `null`/`undefined` or an absent document field. */
  datatype Option<+T> = None | Some(value: T)

  /** The outcome of an operation that may fail with an error value instead of returning. */
  datatype Result<+R, +E> = Success(value: R) | Failure(error: E)
}
