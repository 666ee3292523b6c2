/** Optional values: a JavaScript `null`-able field or state variable. */
module Wrappers {

  datatype Option<+T> = None | Some(value: T)
}
