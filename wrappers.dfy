/** Option stands for a C# reference that may be null; Result for a call that
    either returns a value or throws. */
module Wrappers {

  datatype Option<+T> = None | Some(value: T)

  datatype Result<+R, +E> = Success(value: R) | Failure(error: E)

  /** A call that returns nothing but may throw. */
  datatype Outcome<+E> = Pass | Fail(error: E)
}
