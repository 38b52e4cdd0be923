/** Failure-compatible wrappers shared by the pricing modules. */
module Wrappers {

  datatype Option<+T> = None | Some(value: T)

  /** The outcome of an operation that either yields a value or rejects the request. */
  datatype Result<+T, +E> = Success(value: T) | Failure(error: E)
}
