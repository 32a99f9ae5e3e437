/** Optional values and results with an error, as used across the model. */
module Wrappers {

  /** A value that may be absent (a PHP array entry that is not set). */
  datatype Option<+T> = None | Some(value: T)

  /** Either a value or the error that stops the operation. */
  datatype Result<+R, +E> = Success(value: R) | Failure(error: E)
}
