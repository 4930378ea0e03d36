/** Option and Result: the "null" and "thrown" outcomes of the link provider, made explicit. */
module Wrappers {

  datatype Option<+T> = None | Some(value: T)

  datatype Result<+T, +E> = Success(value: T) | Failure(error: E)
}
