/** Optional values, used where the source has `null`, `undefined` or a thrown error. */
module Wrappers {
  datatype Option<+T> = None | Some(value: T)
}
