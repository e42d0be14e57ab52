/** Optional values: JavaScript's `undefined` / `null` for a field or a variable. */
module Wrappers {

  datatype Option<+T> = None | Some(value: T)
}
