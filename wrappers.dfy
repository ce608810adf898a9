/** Optional values: a file that may be absent, an argument that may be None. */
module Wrappers {

  datatype Option<+T> = None | Some(value: T)
}
