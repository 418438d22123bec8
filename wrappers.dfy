/** Failure-compatible wrappers used throughout the model: a missing PHP value
    (`null`) is an Option, a call that may throw is a Result. */
module Wrappers {

  datatype Option<+T> = None | Some(value: T)

  datatype Result<+T, +E> = Success(value: T) | Failure(error: E)
}
