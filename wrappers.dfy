/** Failure-carrying values shared by every module of the model: the
    transport layer reports each failure as a value instead of throwing. */
module Wrappers {

  /** A value that may be absent; `None` stands for Java's `null`. */
  datatype Option<+T> = None | Some(value: T)

  /** The result of an operation that yields a value or fails. */
  datatype Result<+T, +E> = Ok(value: T) | Err(error: E)

  /** The result of an operation that yields nothing or fails. */
  datatype Outcome<+E> = Pass | Fail(error: E)
}
