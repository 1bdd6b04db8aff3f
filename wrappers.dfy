/** The optional value used wherever the handler meets a Java `null` or a caught exception. */
module Wrappers {

  datatype Option<+T> = None | Some(value: T)

}
