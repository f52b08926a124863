/** A value that may be missing. A metrics field that was left out of the
    record is `None`; absence is never coerced to a default value. */
module Wrappers {

  datatype Option<+T> = None | Some(value: T)
}
