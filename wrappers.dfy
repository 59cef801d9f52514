/** Optional values: a missing cell, or a table that could not be loaded. */
module Wrappers {

  datatype Option<+T> = None | Some(value: T)
}
