/** The conventional optional value, used for Python's `None` and for errors the source raises. */
module Wrappers {
  datatype Option<+T> = None | Some(value: T)
}
