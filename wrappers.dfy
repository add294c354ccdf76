/** Option and Result values used for the error paths of the optimizers and the data loaders. */
module Wrappers {

  datatype Option<+T> = None | Some(value: T)

  /** A computation either yields a value or fails with the exception the program raises. */
  datatype Result<+T, +E> = Ok(value: T) | Err(error: E)
}
