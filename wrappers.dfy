/** The optional value used for JavaScript's `undefined` and for failed conversions. */
module Wrappers {

  datatype Option<+T> = None | Some(value: T)
}
