/** Bytes, and the two that end lines. */
module Bytes {
  type Byte = b: int | 0 <= b < 256

  const NL: Byte := 10
  const CR: Byte := 13
}
