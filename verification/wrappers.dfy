/** The conventional optional value, used for routing results and validation results. */
module Wrappers {

  datatype Option<+T> = None | Some(value: T)
}
