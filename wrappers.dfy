/** Optional values: `null` in the lottery page's state and a missing key in its storage. */
module Wrappers {

  datatype Option<+T> = None | Some(value: T)
}
