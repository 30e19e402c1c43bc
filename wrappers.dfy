/** Option and Result, used for JavaScript's null/undefined and for thrown errors. */
module Wrappers {

  /** `None` stands for `null` or `undefined`. */
  datatype Option<+T> = None | Some(value: T)

  /** `Failure` carries the message of an error that was thrown. */
  datatype Result<+T, +E> = Success(value: T) | Failure(error: E)
}
