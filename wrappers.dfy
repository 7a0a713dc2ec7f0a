/** Optional and fallible values shared by every module of the model. */
module Wrappers {

  /** A JavaScript value that may be `undefined` or `null`. */
  datatype Option<+T> = None | Some(value: T)

  /** A computation that either produces a value or fails with an error value. */
  datatype Result<+R, +E> = Ok(value: R) | Err(error: E)
}
