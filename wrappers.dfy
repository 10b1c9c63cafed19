/** Optional values: JavaScript `null`/`undefined` and Python `None`. */
module Wrappers {

  datatype Option<+T> = None | Some(value: T)

}
