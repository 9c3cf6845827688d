/** Optional values and results with an error, used by every other module. */
module Wrappers {

  datatype Option<T> = None | Some(value: T) {
    /** The supplied value, or `default` when there is none. */
    function GetOr(default: T): T {
      if Some? then value else default
    }
  }

  datatype Result<T, E> = Ok(value: T) | Err(error: E)
}
