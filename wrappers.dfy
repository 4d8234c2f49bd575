/** Optional values and results with an error, used where the source has `null` or throws. */
module Wrappers {

  /** A value that may be absent, like `BookingDetails | null`. */
  datatype Option<+T> = None | Some(value: T)

  /** A value or the error a call throws instead. */
  datatype Result<+T, +E> = Success(value: T) | Failure(error: E)
}
