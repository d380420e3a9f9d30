/** Rust's `Option`, `Result` and `Result<(), E>` as Dafny datatypes. */
module Wrappers {

  datatype Option<+T> = None | Some(value: T)

  datatype Result<+T, +E> = Ok(value: T) | Err(error: E)

  /** `Result<(), E>`: an operation that either completes or fails with an error. */
  datatype Outcome<+E> = Pass | Fail(error: E)
}
