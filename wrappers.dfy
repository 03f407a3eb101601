/** Option and Result types for operations that can fail. */
module Wrappers {

  datatype Option<+T> = None | Some(value: T)

  /** The outcome of an operation that Python would end by raising an exception. */
  datatype Result<+R, +E> = Ok(value: R) | Err(error: E)
}
