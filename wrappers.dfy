/** Option and Result, the two small wrappers the rest of the model uses. */
module Wrappers {

  datatype Option<+T> = None | Some(value: T)

  /** The outcome of an operation that the source can abort by throwing. */
  datatype Result<+T, +E> = Ok(value: T) | Err(error: E)
}
