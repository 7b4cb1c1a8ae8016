/** A value that may be missing: JavaScript's `undefined` for an absent header or variable. */
module Wrappers {

  datatype Option<+T> = None | Some(value: T)
}
