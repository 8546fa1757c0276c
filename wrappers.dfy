/** Wrappers for the error paths of the model: an exception raised by the
    source becomes a Failure / Fail value. */
module Wrappers {

  /** An optional value: a missing argument, an unbound file name. */
  datatype Option<+T> = None | Some(value: T)

  /** A value returned, or the error raised instead. */
  datatype Result<+T, +E> = Success(value: T) | Failure(error: E)

  /** A call that returns nothing, or the error it raised. */
  datatype Outcome<+E> = Pass | Fail(error: E)
}
