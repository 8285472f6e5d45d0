/** Failure-compatible wrappers used by the ABI model: an optional value and
    a value-or-error result. */
module Wrappers {

  /** An optional value, the model of Rust's `Option`. */
  datatype Option<+T> = None | Some(value: T)

  /** A value or an error, the model of Rust's `Result`. */
  datatype Result<+R, +E> = Success(value: R) | Failure(error: E)
}
