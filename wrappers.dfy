/** Optional values and results with an error, used for Python's None and raised exceptions. */
module Wrappers {

  /**
   * A value that may be absent: Python's `None`, or, where only the fact of failure matters,
   * the exception a call raises (each use says which).
   */
  datatype Option<+T> = None | Some(value: T)

  /** The outcome of a call that either returns a value or raises an error. */
  datatype Result<+T, +E> = Ok(value: T) | Err(error: E)
}
