/** Optional values and the success-or-error results of the session handlers. */
module Wrappers {

  datatype Option<+T> = None | Some(value: T)

  /** A handler either produces a value or fails with an error (an HTTP exception in the service). */
  datatype Result<+T, +E> = Ok(value: T) | Err(error: E)
}
