/** Optional values and results, standing in for C#'s null references and thrown exceptions. */
module Wrappers {

  /** A value that may be absent: `None` plays the part of a C# null reference. */
  datatype Option<+T> = None | Some(value: T)

  /** The outcome of an operation that either returns a value or throws. */
  datatype Result<+T, +E> = Success(value: T) | Failure(error: E)
}
