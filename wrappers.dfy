/** The conventional Some/None datatype, standing for a C# or JavaScript
    reference that may be null. */
module Wrappers {
  datatype Option<+T> = None | Some(value: T)
}
