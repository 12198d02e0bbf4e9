/** Option and Result values shared by the whole model. */
module Wrappers {

  /** An optional value; for a .NET reference type, None stands for null. */
  datatype Option<+T> = None | Some(value: T)

  /** The outcome of a computation that either yields a value or throws. */
  datatype Result<+T, +E> = Success(value: T) | Failure(error: E)
}
