/** Optional values: an absent query parameter, an SQL NULL, a missing row. */
module Wrappers {
  datatype Option<+T> = None | Some(value: T)
}
