/** The optional value used wherever the source may hand back `None`. */
module Wrappers {

  datatype Option<+T> = None | Some(value: T)
}
