/** The optional-value datatype used for lookups and for the outcomes of external calls. */
module Wrappers {

  datatype Option<+T> = None | Some(value: T)
}
