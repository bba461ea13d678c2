/** The nullable values of the scripts: `null`/`undefined` or a value. */
module Wrappers {

  datatype Option<+T> = None | Some(value: T)

}
