/** Failure-compatible wrappers shared by the model: an optional value and a
    success-or-error outcome. */
module Wrappers {

  /** Zero or one value; stands in for a nullable owning pointer. */
  datatype Option<+T> = None | Some(value: T)

  /** The outcome of a call that either returns a value or throws an error. */
  datatype Result<+T, +E> = Success(value: T) | Failure(error: E)
}
