/** The usual optional-value datatype, used here for JavaScript's `undefined`
    results, for operations that throw, and for sums that turn into NaN. */
module Wrappers {

  datatype Option<+T> = None | Some(value: T)
}
