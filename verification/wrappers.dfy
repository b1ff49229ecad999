/** Optional values: a pointer that may be null, a parse that may fail. */
module Wrappers {

  datatype Option<+T> = None | Some(value: T)
}
