/** Optional values, for the `weights=None` default argument. */
module Wrappers {

  datatype Option<+T> = None | Some(value: T)
}
