/** An optional value, and a value-or-error result. */
module Wrappers {

  /** A value that may be absent, such as an environment variable that is not set. */
  datatype Option<+T> = None | Some(value: T)

  /** The outcome of an operation that either returns a value or raises an error. */
  datatype Result<+R, +E> = Success(value: R) | Failure(error: E)
}
