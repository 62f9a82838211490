/** Optional values, for the nullable columns and lookups of the service. */
module Wrappers {

  datatype Option<+T> = None | Some(value: T)
}
