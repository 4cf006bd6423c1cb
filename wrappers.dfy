/** Optional values, for an event that a poll may or may not produce. */
module Wrappers {
  datatype Option<+T> = None | Some(value: T)
}
