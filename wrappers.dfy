/** The optional value used for lookups that may find nothing and for
    persisted data that may be absent. */
module Wrappers {
  datatype Option<T> = None | Some(value: T)
}
