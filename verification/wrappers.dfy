/** Optional values: a header that may be missing, a parse that may fail. */
module Wrappers {
  datatype Option<+T> = None | Some(value: T)
}
