/** Optional values, as returned by `dict.get`. */
module Wrappers {

  datatype Option<+T> = None | Some(value: T)
}
