/** Option and Result, the two failure-carrying datatypes the model uses
    for SQL NULL and for the handlers' error responses. */
module Wrappers {

  datatype Option<+T> = None | Some(value: T)

  datatype Result<+R, +E> = Ok(value: R) | Err(error: E)
}
