/** Optional values and results with an error, shared by the other modules. */
module Wrappers {

  /** `None` stands for a Java `null` or an empty `Optional`. */
  datatype Option<+T> = None | Some(value: T)

  datatype Result<+T, +E> = Success(value: T) | Failure(error: E)
}
