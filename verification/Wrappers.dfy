// A value that may be absent: a failed lookup, a field left out, a thing not yet there.
module Wrappers {

  datatype Option<+T> = None | Some(value: T)
}
