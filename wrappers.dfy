/** Optional values: JavaScript's `undefined` for a missing property or map key. */
module Wrappers {

  datatype Option<+T> = None | Some(value: T)
}
