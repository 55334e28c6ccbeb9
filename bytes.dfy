/** Bytes as the data files store them. */
module Bytes {
  /** One unsigned byte. */
  type Byte = x: int | 0 <= x < 256
}
