/** Optional values and the asynchronous results the service and the HTTP layer pass around. */
module Wrappers {

  /** A Java reference that may be null: None stands for null. */
  datatype Option<+T> = None | Some(value: T)

  /** The Throwable carried by a failed asynchronous result, known here only by its message. */
  datatype Cause = Cause(message: string)

  /** Vert.x AsyncResult: either a result value or the cause of the failure, never both. */
  datatype Result<+T> = Success(value: T) | Failure(cause: Cause)
}
