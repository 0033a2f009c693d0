/** Optional values and results of remote calls. */
module Wrappers {

  /** A value that may be missing: a parse that gave NaN, a signed-out user, no draft. */
  datatype Option<+T> = None | Some(value: T)

  /** The outcome of a call into the hosted data store. */
  datatype Result<+T, +E> = Ok(value: T) | Err(error: E)
}
