/** Optional values and results with an error, shared by the session and pairing modules. */
module Wrappers {

  /** A value that may be absent: JavaScript's `undefined`/`null` stand-in. */
  datatype Option<+T> = None | Some(value: T)

  /** The outcome of a handler that either returns a value or throws an error. */
  datatype Result<+R, +E> = Success(value: R) | Failure(error: E)
}
