/** Failure-carrying datatypes shared by the image helper and the application shell. */
module Wrappers {

  /** A value that may be absent; `None` stands for JavaScript's `null`/`undefined`. */
  datatype Option<+T> = None | Some(value: T)

  /** The outcome of an operation that may throw: `Failure` carries the error message. */
  datatype Result<+R, +E> = Success(value: R) | Failure(error: E)
}
