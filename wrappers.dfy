/** The optional value used for properties that the source adds to an object
    only after the object has been built (absent until then). */
module Wrappers {

  datatype Option<+T> = None | Some(value: T)
}
