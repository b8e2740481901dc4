/** Optional values: `undefined`/absent is `None`. */
module Wrappers {
  datatype Option<+T> = None | Some(value: T)
}
