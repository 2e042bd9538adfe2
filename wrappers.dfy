/** Optional values: JavaScript's `undefined` for an absent map entry or field. */
module Wrappers {
  datatype Option<+T> = None | Some(value: T)
}
