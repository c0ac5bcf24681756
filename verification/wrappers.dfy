/** Option and Result values shared by the modules of this model. */
module Wrappers {

  datatype Option<+T> = None | Some(value: T)

  /** A computation that either produced a value or failed with an error. */
  datatype Result<+T, +E> = Ok(value: T) | Err(error: E)
}
