/** Stand-in for C# `null`: a reference that may be missing. */
module Wrappers {

  datatype Option<+T> = None | Some(value: T)

}
