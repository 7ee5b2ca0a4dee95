/** The optional value used for browser storage reads, `null` ids and screen lookups. */
module Wrappers {

  datatype Option<+T> = None | Some(value: T)
}
