/** Optional values and results with an error, as the source's `T | null` and thrown errors. */
module Wrappers {

  /** A value that may be absent (`null` / `undefined` in the source). */
  datatype Option<+T> = None | Some(value: T)

  /** The outcome of a step that may throw: its value, or the error it threw. */
  datatype Result<+R, +E> = Success(value: R) | Failure(error: E)
}
