/** Optional values and the outcome of user code that may throw. */
module Wrappers {

  /** Kotlin's nullable `T?`. */
  datatype Option<+T> = None | Some(value: T) {
    function GetOr(default: T): T {
      match this
      case Some(v) => v
      case None => default
    }
  }

  /** What a call into user code (a task, an action, a merger) produced: its value, or the
      message of the exception it threw. */
  datatype Result<+T> = Ok(value: T) | Thrown(message: string)
}
