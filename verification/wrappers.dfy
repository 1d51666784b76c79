/** The optional value shared by the other modules: a lookup that may find
    nothing, a saved preference that may be absent. */
module Wrappers {

  datatype Option<+T> = None | Some(value: T)
}
