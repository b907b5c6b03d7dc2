/** Small optional-value and result datatypes used throughout the model. */
module Wrappers {

  /** A value that may be absent, as a missing form or JSON field is. */
  datatype Option<+T> = None | Some(value: T)

  /** The outcome of a request: a value on success, an error otherwise. */
  datatype Result<+T, +E> = Success(value: T) | Failure(error: E)
}
