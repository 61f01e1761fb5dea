/** A value that may be absent: JavaScript's `undefined` in this model. */
module Wrappers {

  datatype Option<+T> = None | Some(value: T)
}
