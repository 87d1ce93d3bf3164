/** Optional values and results with an error, standing for JSON keys that may be
    absent and for the exceptions the analytics functions raise. */
module Wrappers {

  datatype Option<+T> = None | Some(value: T)

  datatype Result<+R, +E> = Success(value: R) | Failure(error: E)
}
