/** Optional values: Go's nil pointers, nil interfaces and "absent" results. */
module Wrappers {

  datatype Option<+T> = None | Some(value: T)
}
