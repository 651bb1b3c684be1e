/** Optional values: JavaScript's `null`/`undefined` alternative in the model. */
module Wrappers {
  datatype Option<+T> = None | Some(value: T)
}
