/** Optional values and failure-carrying results, used for PHP's nullable
    fields and for the exceptions the setters throw. */
module Wrappers {

  /** A value that may be absent: PHP's `null`. */
  datatype Option<+T> = None | Some(value: T)

  /** The outcome of an operation that can throw. */
  datatype Result<+R, +E> = Success(value: R) | Failure(error: E)
}
