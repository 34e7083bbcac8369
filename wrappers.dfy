/** Rust's `Option` and an error-carrying `Result`, as used throughout the model. */
module Wrappers {
  datatype Option<T> = None | Some(value: T)

  /** `Err` carries the error's display text (`e.to_string()` in the program). */
  datatype Result<T> = Ok(value: T) | Err(message: string)
}
