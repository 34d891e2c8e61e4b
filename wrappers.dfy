/** Option and Result, used for the source's null references and thrown exceptions. */
module Wrappers {

  /** A value that may be missing: `None` stands for a .NET `null`. */
  datatype Option<+T> = None | Some(value: T) {

    /** The value, or `default` when missing (the C# `??` operator). */
    function GetOr(default: T): T {
      match this
      case Some(v) => v
      case None => default
    }
  }

  /** The outcome of an operation that either returns a value or throws. */
  datatype Result<+R, +E> = Ok(value: R) | Err(error: E)
}
