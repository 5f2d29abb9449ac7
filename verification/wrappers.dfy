/** An optional value and a returns-or-throws outcome, used by the store's operations. */
module Wrappers {

  /** A value that may be absent: the model of a TypeScript `undefined`. */
  datatype Option<+T> = None | Some(value: T) {

    /** The wrapped value, or `default` when absent (the `??` operator). */
    function GetOr(default: T): T {
      match this
      case Some(v) => v
      case None => default
    }
  }

  /** The outcome of an invocation that either returns or throws. */
  datatype Result<+R, +E> = Success(value: R) | Failure(error: E)
}
