/** Optional values: JavaScript's `undefined` and `null` both become `None`. */
module Wrappers {

  datatype Option<+T> = None | Some(value: T)
}
