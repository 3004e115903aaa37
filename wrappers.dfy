/** An optional value: a handle that may be unset, a callback argument that may be absent. */
module Wrappers {

  datatype Option<+T> = None | Some(value: T)
}
