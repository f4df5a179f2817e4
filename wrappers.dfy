/** Optional values: a stored key that may be absent, a user that may not be signed in. */
module Wrappers {
  datatype Option<+T> = None | Some(value: T)
}
