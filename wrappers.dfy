/** The optional value used for the form fields, which start out as `null`. */
module Wrappers {

  datatype Option<+T> = None | Some(value: T)
}
