/** The Option type used for values that may be absent: a field that parses
    to NaN, a row that the kline filter drops. */
module Wrappers {

  datatype Option<+T> = None | Some(value: T)
}
