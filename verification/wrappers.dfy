/** Optional values and success/failure results, used wherever the gateway's
    C# code relies on null or on an exception. */
module Wrappers {

  /** A value that may be absent (a C# null). */
  datatype Option<+T> = None | Some(value: T)

  /** The outcome of a collaborator call that may fail. */
  datatype Result<+R, +E> = Success(value: R) | Failure(error: E)
}
