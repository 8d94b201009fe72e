/** Option, Result and Outcome values standing for C#'s nullable references and exceptions. */
module Wrappers {

  /** A reference that may be null. */
  datatype Option<+T> = None | Some(value: T)

  /** A value, or the exception that was thrown instead of returning it. */
  datatype Result<+T, +E> = Ok(value: T) | Err(error: E)

  /** Normal completion of a void operation, or the exception it threw. */
  datatype Outcome<+E> = Pass | Fail(error: E)
}
