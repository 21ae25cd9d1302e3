/** Failure-compatible wrappers shared by every module of the model. */
module Wrappers {

  /** An optional value: the Go code's `value, ok := m[k]` lookups and nil-able errors. */
  datatype Option<+T> = None | Some(value: T)

  /** Either a value or an error, for the Go functions that return `(T, error)` or `error`. */
  datatype Result<+R, +E> = Success(value: R) | Failure(error: E)
}
