/** An optional value, shared by the modules that model a lookup that can
    come back empty. */
module Wrappers {
  datatype Option<T> = None | Some(value: T)
}
