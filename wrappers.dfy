/** A value that may be absent: a configuration entry the store does not
    hold, a JavaScript property that is `undefined`. */
module Wrappers {

  datatype Option<+T> = None | Some(value: T)
}
