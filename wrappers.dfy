/** Python's `None`-or-a-value, used for optional arguments and failed conversions. */
module Wrappers {

  datatype Option<+T> = None | Some(value: T)
}
