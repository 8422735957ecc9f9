/** An optional value: used for JavaScript results that may be NaN or absent. */
module Wrappers {

  datatype Option<+T> = None | Some(value: T)
}
