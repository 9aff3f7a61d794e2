/** Optional values: a result that an operation may decline to produce. */
module Wrappers {
  datatype Option<+T> = None | Some(value: T)
}
