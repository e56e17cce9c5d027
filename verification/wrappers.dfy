/** A missing table cell (pandas NaN) is `None`; a present one is `Some(value)`. */
module Wrappers {
  datatype Option<+T> = None | Some(value: T)
}
