/** JavaScript's `undefined` next to a defined value. */
module Wrappers {

  datatype Option<+T> = None | Some(value: T)
}
