/** Failure-compatible value types used across the model: Java's nullable
    references become Option, an operation that can raise becomes Result or
    Outcome. */
module Wrappers {

  /** A value that may be absent (a Java reference that may be null). */
  datatype Option<+T> = None | Some(value: T)

  /** A computed value, or the text of the exception that prevented it. */
  datatype Result<+T, +E> = Ok(value: T) | Err(error: E)

  /** A void operation that either completed or raised an exception. */
  datatype Outcome<+E> = Pass | Fail(error: E)
}
