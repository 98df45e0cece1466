/** Option and Result values used for the error paths of the model. */
module Wrappers {

  datatype Option<+T> = None | Some(value: T)

  /** A Python call that either returns a value or raises an exception. */
  datatype Result<+T, +E> = Ok(value: T) | Err(error: E)
}
