/** The optional-value datatype used for parse results and for the export that may be absent. */
module Wrappers {

  datatype Option<+T> = None | Some(value: T)
}
