/** Option and Result: how the model carries Python's None and raised exceptions. */
module Wrappers {

  datatype Option<+T> = None | Some(value: T)

  /** The outcome of a Python call that either returns `value` or raises `error`. */
  datatype Result<+R, +E> = Ok(value: R) | Err(error: E)
}
