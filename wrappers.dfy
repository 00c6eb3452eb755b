/** Option and Result: null references and thrown exceptions of the library, as values. */
module Wrappers {

  /** `None` stands for a C# `null` reference or an unset `default` value. */
  datatype Option<+T> = None | Some(value: T)

  /** `Failure` stands for an exception thrown instead of producing a value. */
  datatype Result<+R, +E> = Success(value: R) | Failure(error: E)
}
