/** The usual Some/None wrapper. */
module Wrappers {
  datatype Option<+T> = None | Some(value: T)
}
