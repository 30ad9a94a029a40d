/** Optional values and results shared by every module of the model. */
module Wrappers {

  /** A value that may be absent: a missing JSON field, an unset environment
      variable, or JavaScript's NaN where a number was expected. */
  datatype Option<+T> = None | Some(value: T)

  /** The outcome of a call that may throw: `Failure` carries the message of
      the thrown error, which the routes pass back to the client verbatim. */
  datatype Result<+R, +E> = Success(value: R) | Failure(error: E)
}
