/** An optional value: a parser's result or the bill being edited. */
module Wrappers {

  /** A value that may be absent: used for the results of the parsers the
      program borrows from the JavaScript runtime (`None` stands for NaN or an
      invalid date) and for optional arguments such as the bill being edited. */
  datatype Option<+T> = None | Some(value: T)
}
