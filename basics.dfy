/** The two wrappers the model uses: Option for Python's `None`, Result for a raised error. */
module Basics {

  datatype Option<+T> = None | Some(value: T) {
    /** The value, or `default` when there is none (`x if x is not None else default`). */
    function GetOr(default: T): T {
      if Some? then value else default
    }
  }

  datatype Result<+T, +E> = Ok(value: T) | Err(error: E)
}
