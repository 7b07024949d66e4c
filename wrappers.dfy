/** Optional values and success-or-error outcomes, shared by the whole model. */
module Wrappers {

  /** A value that may be absent (Python's `None`, a JavaScript `NaN`). */
  datatype Option<+T> = None | Some(value: T)

  /** The outcome of a handler that produces a value or reports an error. */
  datatype Result<+R, +E> = Success(value: R) | Failure(error: E)

  /** The outcome of a handler that only succeeds or reports an error. */
  datatype Outcome<+E> = Pass | Fail(error: E)
}
