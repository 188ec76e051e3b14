/** Optional values and failure-carrying results. */
module Wrappers {

  /** Rust's `Option<T>`. */
  datatype Option<T> = None | Some(value: T)

  /** A computation that either succeeds with a value or stops with an error. */
  datatype Result<T, E> = Success(value: T) | Failure(error: E)
}
