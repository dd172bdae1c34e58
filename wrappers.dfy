/** Optional values, standing in for nullable pointers and "not found" results. */
module Wrappers {
  datatype Option<+T> = None | Some(value: T)
}
