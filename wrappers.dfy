/** Go's `(value, error)` pairs and nil-able values, as datatypes. */
module Wrappers {

  datatype Option<+T> = None | Some(value: T)

  /** A Go `(value, err)` return: `Failure` carries the error's text. */
  datatype Result<+R, +E> = Success(value: R) | Failure(error: E)
}
