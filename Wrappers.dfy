/** Optional values, shared by the modules that read possibly missing fields. */
module Wrappers {
  datatype Option<T> = None | Some(value: T)
}
