/** Option and Result, the two failure-carrying values the model uses. */
module Wrappers {

  /** A value that may be absent; an unparsable form field is `None`. */
  datatype Option<+T> = None | Some(value: T)

  /** The outcome of a step that can reject its input. */
  datatype Result<+T, +E> = Success(value: T) | Failure(error: E)
}
