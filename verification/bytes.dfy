/** Bytes and the big-endian 16-bit fields carried in bus payloads, read the
    way encoding/binary's BigEndian.Uint16 reads them. */
module Bytes {

  /** One octet of a frame payload (Go's uint8). */
  type byte = bv8

  /** An unsigned 16-bit value (Go's uint16). */
  type uint16 = x: int | 0 <= x < 0x1_0000

  /** The value whose high byte is b[0] and whose low byte is b[1]; like
      BigEndian.Uint16, it needs two bytes and ignores any that follow. */
  function BigEndianUint16(b: seq<byte>): (v: uint16)
    requires |b| >= 2
    ensures v / 256 == b[0] as int && v % 256 == b[1] as int
  {
    b[0] as int * 256 + b[1] as int
  }

  /** The two bytes, high byte first, that carry v on the wire. */
  function PutUint16(v: uint16): (b: seq<byte>)
    ensures |b| == 2
  {
    [ToByte(v / 256), ToByte(v % 256)]
  }

  /** The byte whose value is x, counted up from zero so that no proof has
      to reason about the solver's int-to-bit-vector conversion. */
  function ToByte(x: int): (b: byte)
    requires 0 <= x < 256
    ensures b as int == x
    decreases x
  {
    if x == 0 then 0 else ToByte(x - 1) + 1
  }

  /** Writing a value and reading it back gives the value. */
  lemma PutThenRead(v: uint16)
    ensures BigEndianUint16(PutUint16(v)) == v
  {
    var b := PutUint16(v);
    assert b[0] as int == v / 256 && b[1] as int == v % 256;
  }

  /** Reading two bytes and writing the value back gives the same two bytes. */
  lemma ReadThenPut(b: seq<byte>)
    requires |b| >= 2
    ensures PutUint16(BigEndianUint16(b)) == b[..2]
  {
  }
}
