/** Option and Result, the two wrappers the model uses for "no file" and for a raised error. */
module Wrappers {

  datatype Option<+T> = None | Some(value: T)

  datatype Result<+R, +E> = Success(value: R) | Failure(error: E)
}
