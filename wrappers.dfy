/** Option stands for a value JavaScript may leave undefined or null (and SQL as NULL);
    Result for a call that returns or throws. */
module Wrappers {

  datatype Option<+T> = None | Some(value: T)

  datatype Result<+T, +E> = Ok(value: T) | Err(error: E)
}
