/** Little-endian integer codecs. The stream helpers of other.cpp read and
    write integers in host byte order; the archive and the RIFF/WAVE output
    are little-endian, so the model states that order explicitly. */
module LittleEndian {

  type Byte = b: int | 0 <= b < 0x100
  type U16 = v: int | 0 <= v < 0x1_0000
  type U32 = v: int | 0 <= v < 0x1_0000_0000
  type I32 = v: int | -0x8000_0000 <= v < 0x8000_0000

  const TwoTo32: int := 0x1_0000_0000

  /** The two bytes `ostream_write_u16` emits, low byte first. */
  function EncodeU16(v: U16): (bs: seq<Byte>)
    ensures |bs| == 2
  {
    [v % 0x100, v / 0x100]
  }

  /** The value `istream_read_u16` returns for two bytes read. */
  function DecodeU16(bs: seq<Byte>): (v: U16)
    requires |bs| == 2
    ensures v % 0x100 == bs[0] && v / 0x100 == bs[1]
  {
    bs[0] as int + 0x100 * bs[1] as int
  }

  /** The four bytes `ostream_write_u32` emits, low half first. */
  function EncodeU32(v: U32): (bs: seq<Byte>)
    ensures |bs| == 4
  {
    EncodeU16(v % 0x1_0000) + EncodeU16(v / 0x1_0000)
  }

  /** The value `istream_read_u32` returns for four bytes read. */
  function DecodeU32(bs: seq<Byte>): (v: U32)
    requires |bs| == 4
    ensures v % 0x1_0000 == DecodeU16(bs[..2]) && v / 0x1_0000 == DecodeU16(bs[2..])
  {
    DecodeU16(bs[..2]) + 0x1_0000 * DecodeU16(bs[2..])
  }

  /** `ostream_write_i32`: the two's-complement bit pattern of `v`. */
  function EncodeI32(v: I32): (bs: seq<Byte>)
    ensures |bs| == 4
  {
    EncodeU32(if v < 0 then v + TwoTo32 else v)
  }

  /** `istream_read_i32`: four bytes read back as a two's-complement value. */
  function DecodeI32(bs: seq<Byte>): (v: I32)
    requires |bs| == 4
    ensures v < 0 <==> bs[3] >= 0x80
    ensures (if v < 0 then v + TwoTo32 else v) == DecodeU32(bs)
  {
    var u := DecodeU32(bs);
    if u >= 0x8000_0000 then u - TwoTo32 else u
  }

  lemma U16RoundTrip(v: U16)
    ensures DecodeU16(EncodeU16(v)) == v
  {
  }

  lemma U16BytesRoundTrip(bs: seq<Byte>)
    requires |bs| == 2
    ensures EncodeU16(DecodeU16(bs)) == bs
  {
  }

  lemma U32RoundTrip(v: U32)
    ensures DecodeU32(EncodeU32(v)) == v
  {
    var bs := EncodeU32(v);
    assert bs[..2] == EncodeU16(v % 0x1_0000);
    assert bs[2..] == EncodeU16(v / 0x1_0000);
    U16RoundTrip(v % 0x1_0000);
    U16RoundTrip(v / 0x1_0000);
  }

  lemma U32BytesRoundTrip(bs: seq<Byte>)
    requires |bs| == 4
    ensures EncodeU32(DecodeU32(bs)) == bs
  {
    var lo, hi := DecodeU16(bs[..2]), DecodeU16(bs[2..]);
    var v := DecodeU32(bs);
    assert v % 0x1_0000 == lo && v / 0x1_0000 == hi;
    U16BytesRoundTrip(bs[..2]);
    U16BytesRoundTrip(bs[2..]);
    assert bs == bs[..2] + bs[2..];
  }

  lemma I32RoundTrip(v: I32)
    ensures DecodeI32(EncodeI32(v)) == v
  {
    U32RoundTrip(if v < 0 then v + TwoTo32 else v);
  }

  lemma I32BytesRoundTrip(bs: seq<Byte>)
    requires |bs| == 4
    ensures EncodeI32(DecodeI32(bs)) == bs
  {
    U32BytesRoundTrip(bs);
  }

  /** Bytes read into a `char` buffer, one character per byte. */
  function Chars(bs: seq<Byte>): (s: string)
    ensures |s| == |bs|
    ensures forall k :: 0 <= k < |bs| ==> s[k] as int == bs[k]
  {
    seq(|bs|, k requires 0 <= k < |bs| => bs[k] as char)
  }

  /** The bytes of an ASCII/Latin-1 literal such as a chunk tag. */
  function Latin1(s: string): (bs: seq<Byte>)
    requires forall k :: 0 <= k < |s| ==> s[k] as int < 0x100
    ensures Chars(bs) == s
  {
    seq(|s|, k requires 0 <= k < |s| => s[k] as int)
  }

  /** Characters read from bytes are written back as the same bytes. */
  lemma Latin1Chars(bs: seq<Byte>)
    ensures Latin1(Chars(bs)) == bs
  {
    var s := Chars(bs);
    assert forall k :: 0 <= k < |bs| ==> Latin1(s)[k] == s[k] as int == bs[k];
  }
}
