/** Optional values: JavaScript's `undefined` / `null` and absent entries. */
module Wrappers {

  datatype Option<+T> = None | Some(value: T)
}
