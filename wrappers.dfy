/** Optional values, used for results that may be missing or may fail. */
module Wrappers {
  datatype Option<+T> = None | Some(value: T)
}
