/** The nullable values of the Java source: `None` stands for `null`. */
module Wrappers {

  datatype Option<+T> = None | Some(value: T)
}
