/** Optional values and results with an error, as the controllers use them for
    `null`-returning reads and for model calls that throw a distinguished error. */
module Wrappers {

  datatype Option<+T> = None | Some(value: T)

  datatype Result<+R, +E> = Success(value: R) | Failure(error: E)
}
