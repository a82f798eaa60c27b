/** The optional-value and success-or-error types used throughout the model. */
module Wrappers {

  datatype Option<T> = None | Some(value: T)

  /** A Go `(value, error)` pair where exactly one side matters. */
  datatype Result<T> = Success(value: T) | Failure(error: string)
}
