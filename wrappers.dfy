/** The optional value shared by the modules: a missing tip, a missing user,
    a result not yet there. */
module Wrappers {
  datatype Option<T> = None | Some(value: T)
}
