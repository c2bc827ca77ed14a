/** Optional values, standing for Python's `None` results and caught exceptions. */
module Wrappers {
  datatype Option<T> = None | Some(value: T)
}
