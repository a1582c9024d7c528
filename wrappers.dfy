/** Optional values, used for "absent" artifacts and "no match" results. */
module Wrappers {

  datatype Option<+T> = None | Some(value: T)
}
