/** Optional values: a WebGL location or a "last bound" cursor that may be unset. */
module Wrappers {
  datatype Option<+T> = None | Some(value: T)
}
