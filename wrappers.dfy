/** Optional values, used where the Python code yields `None`. */
module Wrappers {

  datatype Option<+T> = None | Some(value: T)
}
