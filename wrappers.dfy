/** Optional values: a field or argument the source may leave undefined. */
module Wrappers {

  datatype Option<+T> = None | Some(value: T)
}
