/** Option and Result, shared by the whole model. */
module Wrappers {

  /** An optional value (Rust's `Option`). */
  datatype Option<+T> = None | Some(value: T)

  /** A value or an error (Rust's `Result`, and the panics of `unwrap`). */
  datatype Result<+T, +E> = Ok(value: T) | Err(error: E)
}
