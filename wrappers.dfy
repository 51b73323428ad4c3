/** Option and Result: the absent value (C# `null`) and the thrown exception. */
module Wrappers {

  datatype Option<+T> = None | Some(value: T) {
    /** The value, or `default` when absent (C# `??`). */
    function GetOr(default: T): T {
      match this
      case Some(v) => v
      case None => default
    }
  }

  /** A value, or the error a C# method would have thrown instead of returning. */
  datatype Result<+R, +E> = Success(value: R) | Failure(error: E)
}
