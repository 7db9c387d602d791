/** Optional values, used wherever the source has `undefined` or a missing key. */
module Wrappers {
  datatype Option<+T> = None | Some(value: T)
}
