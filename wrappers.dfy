/** The optional value used for every lookup and split result of the model. */
module Wrappers {

  datatype Option<T> = None | Some(value: T) {

    /** Rust's `Option::unwrap_or`. */
    function GetOr(default: T): T {
      if Some? then value else default
    }
  }
}
