/** Failure-carrying results shared by the whole model. */
module Wrappers {

  /** A value that may be absent (Rust's `Option`, TypeScript's `undefined`). */
  datatype Option<+T> = None | Some(value: T)

  /** Rust's `Result<T, E>`. */
  datatype Result<+T, +E> = Ok(value: T) | Err(error: E)

  /** Rust's `Result<(), E>`: success carries nothing. */
  datatype Outcome<+E> = Pass | Fail(error: E)
}
