/** The two failure-carrying shapes the service uses in place of Python's
    `None` and its raised exceptions. */
module Wrappers {

  /** A value that may be absent (Python's `X | None`). */
  datatype Option<+T> = None | Some(value: T)

  /** The outcome of an operation that either returns a value or fails with
      an error (a raised exception, or an HTTP error response). */
  datatype Result<+R, +E> = Success(value: R) | Failure(error: E)
}
