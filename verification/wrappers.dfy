/** The optional-value and outcome datatypes used across the model. */
module Wrappers {

  /** A value that may be missing: `null` or `undefined` on the JavaScript side. */
  datatype Option<+T> = None | Some(value: T)

  /** The outcome of an operation that may throw. */
  datatype Result<+T, +E> = Success(value: T) | Failure(error: E)
}
