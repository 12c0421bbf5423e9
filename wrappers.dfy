/** A value that may be missing, as a pandas cell may hold NaN. */
module Wrappers {

  datatype Option<+T> = None | Some(value: T)
}
