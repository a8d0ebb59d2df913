/** An optional value: a dictionary lookup that may miss, a local that may be absent. */
module Wrappers {

  datatype Option<+T> = None | Some(value: T)
}
