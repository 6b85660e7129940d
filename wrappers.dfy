/** Option and Result: absence and failure as values, in place of
    `undefined` returns and thrown validation errors. */
module Wrappers {

  datatype Option<+T> = None | Some(value: T)

  datatype Result<+T, +E> = Ok(value: T) | Err(error: E)
}
