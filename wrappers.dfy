/** Option and Result, for the optional fields of the configuration and for
    the error returns of the scanner. */
module Wrappers {

  datatype Option<+T> = None | Some(value: T)

  datatype Result<+T, +E> = Ok(value: T) | Err(error: E)
}
