// Failure-carrying datatypes shared by the whole project.
module Wrappers {

  datatype Option<+T> = None | Some(value: T) {
    // The source's `unwrap_or`.
    function GetOr(default: T): T {
      if Some? then value else default
    }
  }

  datatype Result<+T, +E> = Ok(value: T) | Err(error: E)
}
