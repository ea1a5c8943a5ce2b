/** Small shared datatypes. */
module Wrappers {
  newtype byte = k: int | 0 <= k < 256
  type bytes = seq<byte>

  datatype Option<+T> = None | Some(value: T)
}
