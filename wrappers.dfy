/** Optional values: JavaScript's `null` / `undefined` / absent fields. */
module Wrappers {

  datatype Option<+T> = None | Some(value: T)
}
