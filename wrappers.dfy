/** Optional values: the answer fields hold a number or nothing (what `parseInt` reports as NaN). */
module Wrappers {
  datatype Option<+T> = None | Some(value: T)
}
