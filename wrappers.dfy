/** Option and Result values, used where the Python code returns None or raises. */
module Wrappers {

  datatype Option<+T> = None | Some(value: T)

  /** The outcome of an operation that either succeeds or raises with a message. */
  datatype Result<+T> = Ok(value: T) | Err(message: string)
}
