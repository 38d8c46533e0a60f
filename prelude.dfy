/** Failure-carrying wrappers shared by both puzzles. */
module Prelude {

  /** Rust's `Option<T>`. */
  datatype Option<T> = None | Some(value: T)

  /** Rust's `Result<T, E>`. */
  datatype Result<T, E> = Ok(value: T) | Err(error: E)

  /** How a call ends: it returns a value, or it aborts (an `unwrap` of a
      `None`/`Err`, or an out-of-range slice). */
  datatype Exit<T> = Done(value: T) | Panic
}
