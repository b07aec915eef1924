/** Optional values, used wherever the bridge's code can come up empty. */
module Wrappers {
  datatype Option<+T> = None | Some(value: T)
}
