/** The optional result of a scan or a lookup. */
module Wrappers {
  datatype Option<T> = None | Some(value: T)
}
