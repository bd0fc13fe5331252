/** Failure-compatible result types used in place of the C++ exceptions and std::optional. */
module Wrappers {

  /** std::optional: a value, or nothing. */
  datatype Option<+T> = None | Some(value: T)

  /** A value, or the error the source would have thrown. */
  datatype Result<+T, +E> = Ok(value: T) | Err(error: E)

  /** Success without a value, or the error the source would have thrown. */
  datatype Outcome<+E> = Pass | Fail(error: E)
}
