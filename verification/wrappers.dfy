/** Option and Result shapes shared by every model in this project. */
module Wrappers {

  /** A value that may be absent: JavaScript `undefined`/`null`, Go's zero value, Python's `None`. */
  datatype Option<+T> = None | Some(value: T) {
    function GetOr(default: T): T {
      match this
      case Some(v) => v
      case None => default
    }
  }

  /** The outcome of a fallible call: Go's `(value, error)` pair, a thrown exception, a provider error. */
  datatype Result<+T, +E> = Ok(value: T) | Err(error: E)
}
