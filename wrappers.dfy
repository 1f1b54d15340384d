/** Optional values, standing for JavaScript's `null` / `undefined` where only presence matters. */
module Wrappers {

  datatype Option<+T> = None | Some(value: T)
}
