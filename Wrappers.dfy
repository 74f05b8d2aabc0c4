/** The optional value used wherever the source has `null`/`undefined` or Python's `None`. */
module Wrappers {
  datatype Option<T> = None | Some(value: T)
}
