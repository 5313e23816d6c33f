/** The optional value used for a parse that may fail and for a storage
    lookup that may find nothing. */
module Wrappers {

  datatype Option<+T> = None | Some(value: T)
}
