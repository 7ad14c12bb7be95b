/** An absent value: `null` or `undefined` in the source. */
module Wrappers {

  datatype Option<+T> = None | Some(value: T) {
    function UnwrapOr(default: T): (t: T) {
      if Some? then value else default
    }
  }
}
