/** Option and Result, the two failure-carrying shapes the rest of the model uses. */
module Wrappers {

  /** A value that may be absent (a JavaScript `null` / `undefined` field). */
  datatype Option<+T> = None | Some(value: T)

  /** The outcome of a guard chain: the payload that is sent, or the reason it is not. */
  datatype Result<+T, +E> = Success(value: T) | Failure(error: E)
}
