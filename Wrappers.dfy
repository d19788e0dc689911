/** The optional value used throughout the model, in place of Go's empty
    string or nil "absent" conventions where those are made explicit. */
module Wrappers {

  datatype Option<+T> = None | Some(value: T)
}
