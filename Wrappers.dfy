/** Optional values: an absent JavaScript property (`undefined`) is `None`. */
module Wrappers {

  datatype Option<+T> = None | Some(value: T)
}
