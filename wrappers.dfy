/** The optional value the Python code expresses with `None`, and a success-or-failure result. */
module Wrappers {

  datatype Option<+T> = None | Some(value: T) {

    /** The value, or `default` when there is none. */
    function GetOr(default: T): T {
      match this
      case Some(v) => v
      case None => default
    }
  }

  /** The outcome of a request: a value, or the kind of error the view reports. */
  datatype Result<+T, +E> = Ok(value: T) | Err(error: E)
}
