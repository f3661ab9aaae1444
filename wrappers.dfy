/** Optional values and outcomes that may carry an error, used across the model. */
module Wrappers {

  datatype Option<+T> = None | Some(value: T)

  /** The outcome of an operation that in the C++ source may throw: a thrown
      exception is `Failure` with its message. */
  datatype Result<+T> = Success(value: T) | Failure(error: string)
}
