/** Optional values: a configuration entry that may be unset. */
module Wrappers {

  datatype Option<+T> = None | Some(value: T)
}
