/** Optional values: a Python value that may be `None`, or a call that may raise. */
module Wrappers {

  datatype Option<+T> = None | Some(value: T)

}
