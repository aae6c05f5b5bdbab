/** Optional values and results with an error path, shared by the whole model. */
module Wrappers {

  /** A value that may be missing: JavaScript's `undefined` (or `null`) is `None`. */
  datatype Option<+T> = None | Some(value: T)

  /** The outcome of an operation that the source can abort by throwing. */
  datatype Result<+T, +E> = Ok(value: T) | Err(error: E)
}
