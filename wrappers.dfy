/** Optional values and results of calls that may raise. */
module Wrappers {

  /** A value that may be missing. */
  datatype Option<+T> = None | Some(value: T)

  /** The result of a call that either returns a value or raises an exception
      (the exception is kept only as its message). */
  datatype Result<+T> = Success(value: T) | Failure(error: string)
}
