/** Failure-compatible wrappers used by the session model. */
module Wrappers {

  /** A value that may be absent: an empty `sync_data` dict, a missed search. */
  datatype Option<+T> = None | Some(value: T)

  /** The outcome of an operation that can raise before it mutates anything. */
  datatype Result<+R, +E> = Success(value: R) | Failure(error: E)
}
