/** Optional values and results with an error case, shared by every module of the model. */
module Wrappers {

  /** A value that may be missing: Python's `None` or an absent dictionary key. */
  datatype Option<+T> = None | Some(value: T)

  /** A computation that either succeeds or reports why it did not. */
  datatype Result<+T, +E> = Ok(value: T) | Err(error: E)
}
