/** Facts about the conversion between integers and bytes. */
module Bytes {
  /** A value that fits in a byte survives the conversion to `bv8` and back. */
  lemma ByteRoundTrip(m: int)
    requires 0 <= m < 256
    ensures (m as bv8) as int == m
  {
  }
}
