/** Optional values: JavaScript's `undefined` where a property or a lookup may be absent. */
module Wrappers {

  datatype Option<+T> = None | Some(value: T)
}
