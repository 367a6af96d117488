/** Option and Result, the error-carrying shapes every other module returns. */
module Wrappers {

  datatype Option<+T> = None | Some(value: T)

  /** A Python call either returns a value or raises; `Err` carries the raised exception. */
  datatype Result<+T, +E> = Ok(value: T) | Err(error: E)
}
