/** Optional values, used for the settings an observer or a configuration may leave unset. */
module Wrappers {
  datatype Option<+T> = None | Some(value: T)
}
