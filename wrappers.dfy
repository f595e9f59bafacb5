/** Option and Result: the outcome of a lookup and of a request handler that may raise. */
module Wrappers {

  datatype Option<+T> = None | Some(value: T)

  /** `Success` is a normal return; `Failure` is an exception the handler raised. */
  datatype Result<+R, +E> = Success(value: R) | Failure(error: E)
}
