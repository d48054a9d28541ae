/** Python's `None`-or-value, used for optional settings and handles. */
module Wrappers {
  datatype Option<+T> = None | Some(value: T)
}
