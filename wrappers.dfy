/** Optional values: a storage key that may be absent, a callback that may not be scheduled. */
module Wrappers {
  datatype Option<+T> = None | Some(value: T)
}
