/** The optional value the editor uses wherever the source stores `null`. */
module Wrappers {

  datatype Option<+T> = None | Some(value: T)

}
