/**
 Result types for Go's `(value, error)` and bare `error` returns. An error is
 represented by its message, since the Go code builds every error with
 `fmt.Errorf` and callers only propagate or print it.
 */
module Wrappers {

  datatype Option<+T> = None | Some(value: T)
  {
    function GetOr(default: T): T
    {
      match this
      case None => default
      case Some(v) => v
    }
  }

  /** `(value, nil)` or `(zero, err)`. */
  datatype Result<+T> = Ok(value: T) | Err(msg: string)

  /** A bare Go `error`: nil or a message. */
  datatype Outcome = Pass | Fail(msg: string)

  /** A Go call that either returns or panics at run time. */
  datatype Run<+T> = Returns(value: T) | Panics(reason: string)
}
