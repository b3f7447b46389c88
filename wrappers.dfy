/** The optional value shared by the audio hook and the reveal timeline. */
module Wrappers {

  datatype Option<T> = None | Some(value: T)
}
