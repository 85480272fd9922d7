/** Option and Result, the two failure-carrying shapes the model uses. */
module Wrappers {

  datatype Option<T> = None | Some(value: T)

  /** A value, or the error a Go function would have returned beside it. */
  datatype Result<T, E> = Ok(value: T) | Err(error: E)
}
