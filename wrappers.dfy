/** The optional value the decoders of this model return. */
module Wrappers {
  datatype Option<+T> = None | Some(value: T)
}
