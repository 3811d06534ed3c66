/** Option and Result values for the operations whose Python counterparts raise. */
module Wrappers {

  datatype Option<+T> = None | Some(value: T)

  /** `Err` carries the exception the Python code would raise at that point. */
  datatype Result<+T, +E> = Ok(value: T) | Err(error: E)
}
