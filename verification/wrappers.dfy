/** Optional values, standing in for the Java references that may be null. */
module Wrappers {

  /** `None` plays the role of a Java `null`. */
  datatype Option<+T> = None | Some(value: T)

  /** The outcome of an operation that either yields a value or throws. */
  datatype Result<+R, +E> = Success(value: R) | Failure(error: E)
}
