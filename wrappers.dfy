/** Optional values and results, shared by every module of the model. */
module Wrappers {

  /** Python's `None` or a present value. */
  datatype Option<T> = None | Some(value: T)

  /** A value, or the exception the source raises instead of returning one. */
  datatype Result<T, E> = Ok(value: T) | Err(error: E)
}
