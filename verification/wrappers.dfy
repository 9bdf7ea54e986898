/** The optional value used for caches that may be absent and for
    operations that can fail. */
module Wrappers {
  datatype Option<T> = None | Some(value: T)
}
