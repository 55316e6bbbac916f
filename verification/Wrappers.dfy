/** Optional values, used for SQL NULLs, missing rows and absent map entries. */
module Wrappers {
  datatype Option<+T> = None | Some(value: T)
}
