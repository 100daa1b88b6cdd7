/** Optional values, used by most modules. */
module Wrappers {

  datatype Option<+T> = None | Some(value: T)
}
