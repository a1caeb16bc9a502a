/** The optional value used by the lookups of this model. */
module Wrappers {

  datatype Option<+T> = None | Some(value: T)
}
