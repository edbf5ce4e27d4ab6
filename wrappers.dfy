/** Java's `null` and thrown exceptions, as values. */
module Wrappers {

  /** `None` stands for a Java `null` reference. */
  datatype Option<+T> = None | Some(value: T)

  /** `Failure` stands for an exception that leaves the operation. */
  datatype Result<+T, +E> = Success(value: T) | Failure(error: E)
}
