/** Option and Result, as the rest of the model uses them. */
module Wrappers {

  /** A value that may be absent (Java's null). */
  datatype Option<+T> = None | Some(value: T)

  /** The value of a step that may fail with an error instead. */
  datatype Result<+T, +E> = Ok(value: T) | Err(error: E)
}
