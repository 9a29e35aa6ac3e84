/** The optional value that `Chunk.get_block` returns. */
module Wrappers {
  datatype Option<+T> = None | Some(value: T)
}
