/** The optional value used for "no match" and "no best entry yet". */
module Wrappers {
  datatype Option<+T> = None | Some(value: T)
}
