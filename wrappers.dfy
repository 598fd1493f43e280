/** Option and Result: the model's stand-ins for pandas' missing values
    (NaN, NaT, None) and for the exceptions the scripts catch. */
module Wrappers {

  datatype Option<+T> = None | Some(value: T)

  datatype Result<+T, +E> = Ok(value: T) | Err(error: E)
}
