/** Optional values, standing for JavaScript's `undefined` where the page allows it. */
module Wrappers {
  datatype Option<+T> = None | Some(value: T)
}
