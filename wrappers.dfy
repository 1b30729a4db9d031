/** The optional value used throughout the model for JavaScript's `undefined`/`null`, and
    the outcome of an operation that either returns a value or throws an `Error` with a
    message. */
module Wrappers {
  datatype Option<+T> = None | Some(value: T)

  datatype Result<+T> = Success(value: T) | Failure(error: string)
}
