/** Option and Result: the error paths the source signals with `throw` or `undefined`. */
module Wrappers {

  datatype Option<+T> = None | Some(value: T)

  datatype Result<+R, +E> = Success(value: R) | Failure(error: E)

  /** Pass when a call returns normally, Fail(message) when it throws. */
  datatype Outcome<+E> = Pass | Fail(error: E)
}
