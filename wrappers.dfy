/** Option and Result, used for Python's None and for raised exceptions. */
module Wrappers {
  datatype Option<+T> = None | Some(value: T)

  datatype Result<+T, +E> = Ok(value: T) | Err(error: E)

  /** Bytes as the integers 0..255. */
  type byte = b: int | 0 <= b < 256
}
