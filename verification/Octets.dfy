/** Bytes as the host's byte strings hold them. */
module Octets {

  newtype byte = x: int | 0 <= x < 0x100

  type Bytes = seq<byte>
}
