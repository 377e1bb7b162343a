/** Option and Result types used by the two-factor model. */
module Wrappers {

  /** An optional value; stands for Rust's `Option<T>`. */
  datatype Option<+T> = None | Some(value: T)

  /** The outcome of a handler: a value, or the error the handler aborted with. */
  datatype Result<+R, +E> = Success(value: R) | Failure(error: E)
}
