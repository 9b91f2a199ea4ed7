/** Failure-compatible wrappers shared by the model: Kotlin's nullable values
    become `Option`, and calls that may throw become `Outcome`. */
module Wrappers {

  /** A Kotlin `T?`: either absent (`null`) or a value. */
  datatype Option<+T> = None | Some(value: T) {

    /** The Kotlin elvis operator `this ?: default`. */
    function GetOr(default: T): T {
      match this
      case Some(v) => v
      case None => default
    }
  }

  /** The result of a call that either returns a value or throws an
      exception carrying a message. */
  datatype Outcome<+T> = Ok(value: T) | Failed(message: string)
}
