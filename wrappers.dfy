/** The optional value used where the source leaves a property `undefined`. */
module Wrappers {

  datatype Option<+T> = None | Some(value: T)
}
