/** Failure-carrying results shared by the two in-memory services. */
module Wrappers {

  /** A value that may be absent: an optional key of a filter object. */
  datatype Option<+T> = None | Some(value: T) {
    function GetOr(default: T): T {
      match this
      case Some(v) => v
      case None => default
    }
  }

  /** The only error kind the services raise: a thrown `Error` with its message. */
  datatype Error = NotFound(message: string)

  /** The outcome of an operation that either returns a value or throws. */
  datatype Result<+R> = Success(value: R) | Failure(error: Error)
}
