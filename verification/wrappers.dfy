/** Failure-carrying datatypes shared by the relay model. */
module Wrappers {

  /** A value that may be absent: JavaScript's `undefined`, or a JSON parse that failed. */
  datatype Option<+T> = None | Some(value: T) {

    /** The value, or `default` when absent: a JavaScript default parameter. */
    function GetOr(default: T): T {
      if Some? then value else default
    }
  }

  /** The outcome of an operation that either returns a value or throws an error. */
  datatype Result<+R, +E> = Ok(value: R) | Err(error: E)
}
