/** Option and Result, the two failure-carrying shapes the model uses. */
module Wrappers {

  /** A value that may be absent (a JavaScript `undefined`/`null`, or a NaN parse). */
  datatype Option<+T> = None | Some(value: T)

  /** The outcome of a request to the hosted backend: a row, or the error it reported. */
  datatype Result<+R, +E> = Success(value: R) | Failure(error: E)
}
