/** Optional values, used for references that may be absent (Python `None`). */
module Wrappers {

  datatype Option<+T> = None | Some(value: T)

}
