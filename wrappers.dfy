/** Failure-carrying results used wherever the source raises an exception or returns null. */
module Wrappers {

  datatype Option<+T> = None | Some(value: T)

  /** `Failure` stands for an exception that the source lets escape to its caller. */
  datatype Result<+T> = Success(value: T) | Failure(error: string)
}
