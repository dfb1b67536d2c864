/** Failure-carrying wrappers shared by the other modules. */
module Wrappers {

  /** A value that may be absent, such as a metric the text does not contain. */
  datatype Option<+T> = None | Some(value: T)

  /** Either a computed value or the error that aborted the computation. */
  datatype Result<+R, +E> = Success(value: R) | Failure(error: E)
}
