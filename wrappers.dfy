/** Python's `None` as an explicit alternative. */
module Wrappers {

  datatype Option<+T> = None | Some(value: T)
}
