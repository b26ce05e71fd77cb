/** The one generic datatype every module needs. */
module Wrappers {

  datatype Option<+T> = None | Some(value: T)
}
