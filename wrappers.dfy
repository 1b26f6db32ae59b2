/** Option and Result values shared by the other modules. */
module Wrappers {

  /** A value that may be missing: a nullable column, an optional form key. */
  datatype Option<+T> = None | Some(value: T)

  /** The outcome of an operation that can throw. */
  datatype Result<+T, +E> = Success(value: T) | Failure(error: E)
}
