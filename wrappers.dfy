/** Optional values, used where the harness catches an exception and skips. */
module Wrappers {

  datatype Option<+T> = None | Some(value: T)
}
