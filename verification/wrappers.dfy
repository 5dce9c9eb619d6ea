/** Failure-carrying values shared by every component of the model. */
module Wrappers {

  /** A value that may be absent; stands for a missing or not-a-number result. */
  datatype Option<+T> = None | Some(value: T)

  /** The outcome of an operation that either returns a value or raises. */
  datatype Result<+R, +E> = Success(value: R) | Failure(error: E)
}
