/** The optional-value datatype used for the handlers' alert pop-ups. */
module Wrappers {

  datatype Option<+T> = None | Some(value: T)
}
