/** Optional values, used for the environment lookups and for parses that can fail. */
module Wrappers {

  datatype Option<+T> = None | Some(value: T)
}
