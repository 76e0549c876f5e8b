/** Optional values: JavaScript's `null`/`undefined` and "not found". */
module Wrappers {
  datatype Option<+T> = None | Some(value: T)
}
