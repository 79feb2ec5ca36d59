/** Failure-carrying wrappers used across the model: an absent value and an outcome
    that is either a value or the error the Kotlin code would have thrown. */
module Wrappers {

  datatype Option<+T> = None | Some(value: T)

  datatype Result<+T, +E> = Success(value: T) | Failure(error: E)
}
