/** Result and option types used for the error paths of the model. */
module Wrappers {
  /** A value that may be missing; `None` also stands for a C++ null pointer or a NaN time. */
  datatype Option<T> = None | Some(value: T)

  /** The outcome of an operation that may throw: the value, or the error it raises. */
  datatype Result<T, E> = Success(value: T) | Failure(error: E)

  /** The outcome of an operation that returns nothing but may throw. */
  datatype Outcome<E> = Pass | Fail(error: E)
}
