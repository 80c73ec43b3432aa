/** Optional values and results with an error, used for the JavaScript
    `undefined` and for thrown errors. */
module Wrappers {

  /** A value that may be absent (`undefined` in the source). */
  datatype Option<+T> = None | Some(value: T)

  /** A computation that either produced a value or threw an error. */
  datatype Result<+T, +E> = Success(value: T) | Failure(error: E)
}
