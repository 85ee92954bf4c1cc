/** Failure-carrying results, standing in for the .NET exceptions and null returns of the job. */
module Wrappers {

  /** A value that may be absent (a C# `null`). */
  datatype Option<+T> = None | Some(value: T)

  /** The value of a call that either returned normally or threw. */
  datatype Result<+T, +E> = Success(value: T) | Failure(error: E)
}
