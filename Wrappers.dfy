/** An optional value: used for callbacks that may or may not fire and for formatters that may fail. */
module Wrappers {

  datatype Option<+T> = None | Some(value: T)

}
