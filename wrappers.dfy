/** Optional values: a JSON key that may be absent, an input that may not parse. */
module Wrappers {

  datatype Option<+T> = None | Some(value: T)
}
