/** C#'s nullable references and thrown exceptions, as values. */
module Wrappers {

  /** `None` stands for a C# `null`. */
  datatype Option<+T> = None | Some(value: T)

  /** A computation that either yields a value or raises an exception. */
  datatype Result<+R, +E> = Success(value: R) | Failure(error: E)
}
