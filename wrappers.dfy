/** Option and Result, the two shapes the script's values take once Python's
    None and its exceptions are made explicit. */
module Wrappers {

  /** A value that may be absent (Python's None). */
  datatype Option<+T> = None | Some(value: T)

  /** A computation that either produced a value or failed. */
  datatype Result<+R, +E> = Success(value: R) | Failure(error: E)
}
