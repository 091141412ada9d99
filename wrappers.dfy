/** The optional value used wherever the bridge may fail to obtain a value. */
module Wrappers {

  datatype Option<+T> = None | Some(value: T)
}
