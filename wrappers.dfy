/** Optional values and success/failure results shared by the model. */
module Wrappers {

  /** A value that may be absent (`undefined` in the source). */
  datatype Option<+T> = None | Some(value: T)

  /** The outcome of an operation that can fail with an error value (a thrown `Error` in the source). */
  datatype Result<+R, +E> = Success(value: R) | Failure(error: E)
}
