/** The optional value used wherever the page's JavaScript yields `undefined`
    or stops a promise chain. */
module Wrappers {
  datatype Option<+T> = None | Some(value: T)
}
