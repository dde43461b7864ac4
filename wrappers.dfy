/** The optional value used where the device session keeps JavaScript's `false`
    as "no value yet". */
module Wrappers {
  datatype Option<+T> = None | Some(value: T)
}
