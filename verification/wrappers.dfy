/** A value that may be absent, for operations that can produce nothing. */
module Wrappers {

  datatype Option<T> = None | Some(value: T)
}
