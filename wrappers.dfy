/** Option and Result: absence (JavaScript `undefined`) and thrown errors as values. */
module Wrappers {

  datatype Option<+T> = None | Some(value: T)

  datatype Result<+R, +E> = Success(value: R) | Failure(error: E)
}
