/** Java's null and checked exceptions, made explicit. */
module Wrappers {

  /** A possibly-null reference. */
  datatype Option<+T> = None | Some(value: T)

  /** A call that returns a value or throws. */
  datatype Result<+T, +E> = Success(value: T) | Failure(error: E)
}
