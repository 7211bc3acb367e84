/** Optional values and results shared by the other modules. */
module Wrappers {

  /** A value that may be missing: `undefined` in the source, or NaN for a parsed number. */
  datatype Option<+T> = None | Some(value: T)

  /** The outcome of an operation that can fail. */
  datatype Result<+T, +E> = Ok(value: T) | Err(error: E)
}
