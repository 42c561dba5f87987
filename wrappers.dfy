/** Option and Result, the two failure-carrying wrappers the model uses for
    values that JavaScript leaves `undefined` and for calls that may throw. */
module Wrappers {

  datatype Option<+T> = None | Some(value: T)

  datatype Result<+R, +E> = Success(value: R) | Failure(error: E)
}
