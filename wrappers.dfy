/** Optional values: a JavaScript `null`/`undefined`, a missing JSON key or a failed lookup is `None`. */
module Wrappers {
  datatype Option<+T> = None | Some(value: T)
}
