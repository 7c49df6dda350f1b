/** Optional values: a lookup, quote or broker reply that may be absent. */
module Wrappers {

  datatype Option<+T> = None | Some(value: T)

}
