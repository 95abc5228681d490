/** Go strings and byte slices. */
module ByteStrings {

  newtype Byte = x: int | 0 <= x < 0x100

  type Bytes = seq<Byte>
}
