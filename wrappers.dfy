/** Optional values, used where the source returns "value or nothing". */
module Wrappers {
  datatype Option<+T> = None | Some(value: T)
}
