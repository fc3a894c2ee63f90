/** Optional values, used for a form field that may still be unset and for a lookup that may miss. */
module Wrappers {
  datatype Option<+T> = None | Some(value: T)
}
