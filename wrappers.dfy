/** Option and Result, standing for C#'s null references and thrown exceptions. */
module Wrappers {

  /** `None` plays the part of a C# null reference. */
  datatype Option<+T> = None | Some(value: T) {

    /** The value, or `default` for `None` (C#'s `x ?? default`). */
    function GetOr(default: T): T {
      match this
      case Some(v) => v
      case None => default
    }
  }

  /** `Err` plays the part of an exception leaving the member. */
  datatype Result<+T, +E> = Ok(value: T) | Err(error: E)
}
