/** Option and Result, the two failure-carrying wrappers the model uses. */
module Wrappers {

  /** A value that may be absent: a request field that was not sent, a decode that failed. */
  datatype Option<+T> = None | Some(value: T)

  /** A computation that either produced a value or threw an exception carrying a message. */
  datatype Result<+R, +E> = Success(value: R) | Failure(error: E)
}
