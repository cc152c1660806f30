/** The optional value used wherever the source keeps a nullable reference. */
module Wrappers {

  datatype Option<+T> = None | Some(value: T)
}
