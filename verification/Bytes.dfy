/** Bytes, as the parsers and the line protocol share them. */
module Bytes {
  type Byte = b: int | 0 <= b < 0x100
}
