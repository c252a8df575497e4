/** Option and pass/fail results, standing for Rust's `Option<T>` and `anyhow::Result<()>`. */
module Wrappers {

  datatype Option<+T> = None | Some(value: T)

  /** The outcome of an operation that returns `Result<()>`: success, or the error's text. */
  datatype Outcome<+E> = Pass | Fail(error: E)
}
