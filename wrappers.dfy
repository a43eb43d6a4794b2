/** Optional values and results with an error, shared by every module. */
module Wrappers {

  /** Swift's `T?`, Kotlin's `T?`, a JavaScript value that may be null or undefined. */
  datatype Option<+T> = None | Some(value: T)

  /** A value or a thrown error. */
  datatype Result<+T, +E> = Success(value: T) | Failure(error: E)
}
