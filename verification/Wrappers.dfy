/** The optional value every optional field and lookup of the engine uses. */
module Wrappers {
  datatype Option<+T> = None | Some(value: T)
}
