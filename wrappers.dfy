/** The optional value used where the widget reads a JavaScript array slot that may be `undefined`. */
module Wrappers {
  datatype Option<+T> = None | Some(value: T)
}
