/** Option and Result: the model's stand-ins for Python's `None` returns and raised exceptions. */
module Wrappers {

  datatype Option<+T> = None | Some(value: T)

  /** `Err` is a raised exception that the caller does not catch. */
  datatype Result<+T, +E> = Ok(value: T) | Err(error: E)
}
