/** Failure-compatible wrappers used across the model: an optional value (PHP's `null`
    or a value) and a result that is either a value or a thrown exception. */
module Wrappers {

  datatype Option<+T> = None | Some(value: T)

  datatype Result<+T, +E> = Success(value: T) | Failure(error: E)
}
