/** Option and Result datatypes used for missing values (pandas NaN) and for
    the exceptions the analysed code raises. */
module Wrappers {

  datatype Option<+T> = None | Some(value: T)

  datatype Result<+R, +E> = Ok(value: R) | Err(error: E)
}
