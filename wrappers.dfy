/** Option and Result values used for absent fields and for the outcome of backend calls. */
module Wrappers {

  datatype Option<+T> = None | Some(value: T)

  /** The outcome of a call into the backing API: the returned value or the error it threw. */
  datatype Result<+R, +E> = Success(value: R) | Failure(error: E)
}
