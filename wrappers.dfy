/** The optional-value datatype used for fields a JavaScript object may lack. */
module Wrappers {

  datatype Option<+T> = None | Some(value: T)
}
