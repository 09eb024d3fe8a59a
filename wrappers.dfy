/** Optional values: a cache entry that may be absent, a track slot that may be empty. */
module Wrappers {

  datatype Option<+T> = None | Some(value: T)
}
