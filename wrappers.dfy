/** The conventional Some/None datatype, used for the results of the parsers
    that invert the report's text fields. */
module Wrappers {
  datatype Option<+T> = None | Some(value: T)
}
