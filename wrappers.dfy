/** The optional value that stands for a .NET reference which may be null. */
module Wrappers {

  datatype Option<+T> = None | Some(value: T)
}
