/** The optional value used for the source's `undefined`, `null` and falsy results. */
module Wrappers {

  datatype Option<+T> = None | Some(value: T)
}
