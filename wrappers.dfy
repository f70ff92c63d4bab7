/** Optional values: a missing timestamp, a missing configuration key. */
module Wrappers {
  datatype Option<+T> = None | Some(value: T)
}
