/** Optional values: an attribute that may be absent, a style property not yet set. */
module Wrappers {

  datatype Option<+T> = None | Some(value: T)
}
