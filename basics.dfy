/** Optional values and call results shared by every module of the model. */
module Basics {

  /** Swift's `T?`. */
  datatype Option<T> = None | Some(value: T) {

    /** Swift's `x ?? default`. */
    function GetOr(default: T): T {
      if Some? then value else default
    }
  }

  /** A Capacitor call outcome: resolved with a value, or rejected with a message. */
  datatype Result<T, E> = Success(value: T) | Failure(error: E)
}
