/** An optional value; the server's Audio driver is None until the module creates it. */
module Wrappers {
  datatype Option<+T> = None | Some(value: T)
}
