/** Option and Result, the two failure-carrying types the model shares. */
module Wrappers {

  datatype Option<+T> = None | Some(value: T)

  /** The `anyhow::Result<T>` of the application: an error is kept as its display text. */
  datatype Result<+T> = Ok(value: T) | Err(error: string)
}
