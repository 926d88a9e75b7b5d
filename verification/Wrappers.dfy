/** A value that may be missing: Python's None, or a C function's failure to give one. */
module Wrappers {
  datatype Option<T> = None | Some(value: T)
}
