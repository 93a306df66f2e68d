/** Optional values: a JSON field that may be absent from an inbound message. */
module Wrappers {
  datatype Option<+T> = None | Some(value: T)
}
