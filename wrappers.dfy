/** The optional value used wherever the client holds `null`/`undefined` or an absent field. */
module Wrappers {

  datatype Option<+T> = None | Some(value: T)
}
