/** Optional values, used wherever the source answers "not found" or "parse failed". */
module Wrappers {
  datatype Option<T> = None | Some(value: T)
}
