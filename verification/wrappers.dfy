/** Optional values: JavaScript's `undefined` for an absent option or an empty `pop()`. */
module Wrappers {

  datatype Option<+T> = None | Some(value: T)
}
