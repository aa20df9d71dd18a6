/** Optional values and success/failure results, used for missing cells and for
    the failure of the data load. */
module Wrappers {

  /** A value that may be missing, as a pandas cell holding NaN. */
  datatype Option<+T> = None | Some(value: T)

  /** The outcome of an operation that can fail with an error value. */
  datatype Result<+R, +E> = Success(value: R) | Failure(error: E)
}
