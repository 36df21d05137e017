/** Values that may be absent: the source's nil pointers. */
module Wrappers {

  datatype Option<+T> = None | Some(value: T)
}
