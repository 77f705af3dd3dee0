/** Optional values: a lookup that may find nothing, a storage read that may fail. */
module Wrappers {
  datatype Option<+T> = None | Some(value: T)
}
