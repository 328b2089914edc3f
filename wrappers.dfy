/** An optional value, used for the record's nullable slots and for parse results. */
module Wrappers {

  datatype Option<+T> = None | Some(value: T)
}
