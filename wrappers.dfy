/** Optional values: a JavaScript `null` / absent entry as opposed to a present one. */
module Wrappers {
  datatype Option<+T> = None | Some(value: T)
}
