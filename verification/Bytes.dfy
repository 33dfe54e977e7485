/** The byte type shared by the models of buffers, streams and uploads. */
module Bytes {
  newtype byte = x: int | 0 <= x < 256
}
