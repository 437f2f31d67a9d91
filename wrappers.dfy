/** Option and Result datatypes used by the shopping-cart model. */
module Wrappers {

  /** An optional value: a field that may be absent. */
  datatype Option<+T> = None | Some(value: T)

  /** A Go `(value, error)` pair: either the value or the error. */
  datatype Result<+R, +E> = Success(value: R) | Failure(error: E)
}
