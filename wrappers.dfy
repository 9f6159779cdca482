/** Optional values, standing for JavaScript's `undefined` results and for
    readers that may find nothing. */
module Wrappers {

  datatype Option<+T> = None | Some(value: T)
}
