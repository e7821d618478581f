/** The optional value shared by the switch and grade models. */
module Wrappers {

  datatype Option<T> = None | Some(value: T)
}
