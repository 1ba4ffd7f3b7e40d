/** The bytes of buffers and streams. */
module Octets {
  newtype byte = x: int | 0 <= x < 0x100
}
