/** Optional values, for the source's `null`-or-object globals and arguments. */
module Wrappers {

  datatype Option<+T> = None | Some(value: T)
}
