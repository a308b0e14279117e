/** The optional value used wherever the source has a "missing" case. */
module Wrappers {
  datatype Option<T> = None | Some(value: T)
}
