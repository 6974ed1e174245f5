/** Optional values: a missing form field, a null column, an absent lookup. */
module Wrappers {

  datatype Option<+T> = None | Some(value: T)
}
