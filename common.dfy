/** Wrappers shared by every module of the model. */
module Common {

  /** A value that may be missing (JavaScript `undefined`). */
  datatype Option<+T> = None | Some(value: T) {
    function GetOr(default: T): T {
      match this
      case Some(v) => v
      case None => default
    }
  }

  /** The outcome of an operation that may throw. */
  datatype Result<+T, +E> = Ok(value: T) | Err(error: E)

  /** A thrown JavaScript `Error`, reduced to its `message`. */
  datatype Error = Error(message: string)
}
