/** The optional value used where the source tests for `undefined`. */
module Wrappers {

  datatype Option<+T> = None | Some(value: T)
}
