/** Python's `None` for the handler's lookups: a value that may be missing. */
module Wrappers {

  datatype Option<+T> = None | Some(value: T)
}
