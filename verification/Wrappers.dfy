/** Option and Result: Java's nullable references and thrown exceptions, as values. */
module Wrappers {

  /** A value that may be absent (a Java reference that may be null). */
  datatype Option<+T> = None | Some(value: T)

  /** The outcome of an operation that either returns a value or fails with an error. */
  datatype Result<+R, +E> = Success(value: R) | Failure(error: E)
}
