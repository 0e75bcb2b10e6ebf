/** Optional values, used for the optional `days` argument of the loader. */
module Wrappers {

  datatype Option<+T> = None | Some(value: T)
}
