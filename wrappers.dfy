/** Option and Result, the two wrappers the model uses for Go's `(T, bool)` and `(T, error)` returns. */
module Wrappers {
  datatype Option<T> = None | Some(value: T)

  datatype Result<T, E> = Success(value: T) | Failure(error: E)
}
