/** Failure-carrying values used across the model: an optional value, and a
    result that is either a value or an error. */
module Wrappers {

  /** A value that may be absent; an unanswered question on the form is `None`. */
  datatype Option<+T> = None | Some(value: T)

  /** Either a computed value or the reason it could not be computed. */
  datatype Result<+R, +E> = Success(value: R) | Failure(error: E)
}
