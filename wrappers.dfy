/** Option and Result values for the nullable returns and thrown errors of the application. */
module Wrappers {

  /** A value that may be absent: TypeScript's `T | null`. */
  datatype Option<+T> = None | Some(value: T)

  /** The outcome of an operation that can throw: its value, or the error message it throws. */
  datatype Result<+T, +E> = Ok(value: T) | Err(error: E)
}
