/** Option and Result values, used for Java's nullable references and thrown exceptions. */
module Wrappers {

  /** A value that may be absent: `None` stands for a Java `null`. */
  datatype Option<+T> = None | Some(value: T)

  /** Either a value or the error an operation reports instead of returning. */
  datatype Result<+T, +E> = Ok(value: T) | Err(error: E)
}
