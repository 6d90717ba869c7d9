/** Python's `None`-or-a-value, as used for optional attributes of the source records. */
module Wrappers {

  datatype Option<+T> = None | Some(value: T)
}
