/** Option, the model of pandas' None and of a NaN statistic. */
module Wrappers {
  datatype Option<+T> = None | Some(value: T)
}
