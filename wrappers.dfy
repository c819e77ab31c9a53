/** Optional values: a JavaScript value that may be `undefined`, or a number that may be NaN. */
module Wrappers {
  datatype Option<+T> = None | Some(value: T)
}
