/** Optional values and success/failure results, mirroring Swift's `Optional` and `Result`. */
module Wrappers {

  /** Swift's `T?`. */
  datatype Option<+T> = None | Some(value: T)

  /** Swift's `Result<T, E>`, as handed to a completion handler. */
  datatype Result<+T, +E> = Success(value: T) | Failure(error: E)
}
