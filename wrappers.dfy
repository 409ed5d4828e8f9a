/** Option and Result, the two failure-carrying shapes used by the model. */
module Wrappers {

  /** A value that may be absent (a JSON field that is missing, `null` or `undefined`). */
  datatype Option<+T> = None | Some(value: T)

  /** Either the value a handler goes on with, or the error it answers with. */
  datatype Result<+R, +E> = Success(value: R) | Failure(error: E)
}
