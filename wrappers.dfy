/** An optional value: None stands for the NULL a failed load returns. */
module Wrappers {

  datatype Option<+T> = None | Some(value: T)
}
