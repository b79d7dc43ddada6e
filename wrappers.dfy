/** A value that may be absent: models a JavaScript `undefined`. */
module Wrappers {
  datatype Option<+T> = None | Some(value: T)
}
