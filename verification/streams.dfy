/** The binary input stream the decruncher reads the archive through
    (`std::ifstream` opened in binary mode), with the reading helpers of
    other.cpp:77-131. The stream is its byte content and a cursor; every
    helper reads little-endian at the cursor and advances it. A read that
    would run past the end fails with `None` and leaves the cursor alone. */
module Streams {
  import opened LittleEndian
  import opened Errors

  /** The `len` bytes at offset `at` of `data`, if they are all there. */
  function Slice(data: seq<Byte>, at: nat, len: nat): (r: Option<seq<Byte>>)
  {
    if at + len <= |data| then Some(data[at..at + len]) else None
  }

  /** `istream_read_u16` at offset `at`. */
  function ReadU16At(data: seq<Byte>, at: nat): (r: Option<U16>)
    ensures r.Some? <==> at + 2 <= |data|
  {
    match Slice(data, at, 2)
    case Some(bs) => Some(DecodeU16(bs))
    case None => None
  }

  /** `istream_read_u32` at offset `at`. */
  function ReadU32At(data: seq<Byte>, at: nat): (r: Option<U32>)
    ensures r.Some? <==> at + 4 <= |data|
  {
    match Slice(data, at, 4)
    case Some(bs) => Some(DecodeU32(bs))
    case None => None
  }

  /** `istream_read_i32` at offset `at`. */
  function ReadI32At(data: seq<Byte>, at: nat): (r: Option<I32>)
    ensures r.Some? <==> at + 4 <= |data|
  {
    match Slice(data, at, 4)
    case Some(bs) => Some(DecodeI32(bs))
    case None => None
  }

  /** `istream_read_string` at offset `at`: a u16 length `len`, then `len`
      bytes of which the first `len - 1` are kept (the last one is the C
      string's terminator). A length of 0 makes the source resize the
      string to `(size_t)-1`, which throws; the model fails there. */
  function ReadStringAt(data: seq<Byte>, at: nat): (r: Option<string>)
    ensures r.Some? <==> ReadU16At(data, at).Some? && ReadU16At(data, at).value >= 1
                         && at + 2 + ReadU16At(data, at).value <= |data|
    ensures r.Some? ==> |r.value| + 1 == ReadU16At(data, at).value
  {
    match ReadU16At(data, at)
    case None => None
    case Some(len) =>
      if len == 0 then None
      else match Slice(data, at + 2, len)
        case None => None
        case Some(bs) => Some(Chars(bs[..len - 1]))
  }

  /** What a `read` of `n` bytes at `at` gets: the bytes that are there,
      possibly fewer than `n` (its `gcount`). */
  function Available(data: seq<Byte>, at: nat, n: nat): (bs: seq<Byte>)
    ensures |bs| <= n
    ensures at + n <= |data| ==> bs == data[at..at + n]
    ensures n > 0 ==> (|bs| == n <==> at + n <= |data|)
  {
    var lo := if at < |data| then at else |data|;
    var hi := if at + n < |data| then at + n else |data|;
    data[lo..hi]
  }

  /** The bytes between a prefix and a suffix are found again at the
      prefix's length. */
  lemma Between(pre: seq<Byte>, bs: seq<Byte>, post: seq<Byte>)
    ensures (pre + bs + post)[|pre|..|pre| + |bs|] == bs
  {
    assert forall j :: 0 <= j < |bs| ==> (pre + bs + post)[|pre| + j] == bs[j];
  }

  /** What `ostream_write_*` wrote is what the readers read back, wherever
      it sits in the stream and whatever follows it. */
  lemma SliceReadsBack(pre: seq<Byte>, bs: seq<Byte>, post: seq<Byte>)
    ensures Slice(pre + bs + post, |pre|, |bs|) == Some(bs)
  {
    Between(pre, bs, post);
  }

  lemma U16ReadsBack(pre: seq<Byte>, v: U16, post: seq<Byte>)
    ensures ReadU16At(pre + EncodeU16(v) + post, |pre|) == Some(v)
  {
    SliceReadsBack(pre, EncodeU16(v), post);
    U16RoundTrip(v);
  }

  lemma U32ReadsBack(pre: seq<Byte>, v: U32, post: seq<Byte>)
    ensures ReadU32At(pre + EncodeU32(v) + post, |pre|) == Some(v)
  {
    SliceReadsBack(pre, EncodeU32(v), post);
    U32RoundTrip(v);
  }

  lemma I32ReadsBack(pre: seq<Byte>, v: I32, post: seq<Byte>)
    ensures ReadI32At(pre + EncodeI32(v) + post, |pre|) == Some(v)
  {
    SliceReadsBack(pre, EncodeI32(v), post);
    I32RoundTrip(v);
  }

  /** A string item written as its length plus one, its bytes and one
      terminating byte reads back as the string. */
  lemma StringReadsBack(pre: seq<Byte>, s: string, nul: Byte, post: seq<Byte>)
    requires |s| + 1 < 0x1_0000
    requires forall k :: 0 <= k < |s| ==> s[k] as int < 0x100
    ensures ReadStringAt(pre + EncodeU16(|s| + 1) + Latin1(s) + [nul] + post, |pre|) == Some(s)
  {
    var payload := Latin1(s) + [nul];
    var data := pre + EncodeU16(|s| + 1) + Latin1(s) + [nul] + post;
    assert data == pre + EncodeU16(|s| + 1) + (payload + post);
    U16ReadsBack(pre, |s| + 1, payload + post);
    assert data == (pre + EncodeU16(|s| + 1)) + payload + post;
    SliceReadsBack(pre + EncodeU16(|s| + 1), payload, post);
    assert payload[..|s|] == Latin1(s);
  }

  /** A string item of length 0 is refused rather than read. */
  lemma EmptyStringFails(pre: seq<Byte>, post: seq<Byte>)
    ensures ReadStringAt(pre + EncodeU16(0) + post, |pre|) == None
  {
    U16ReadsBack(pre, 0, post);
  }

  /** `std::ifstream` in binary mode: fixed content and a read cursor. */
  class InputStream {
    const data: seq<Byte>
    var pos: nat

    constructor(content: seq<Byte>)
      ensures data == content && pos == 0
    {
      data := content;
      pos := 0;
    }

    /** `tellg`. */
    method Tell() returns (p: nat)
      ensures p == pos
    {
      p := pos;
    }

    /** `seekg`: any position can be set; reads beyond the end then fail. */
    method Seek(p: nat)
      modifies this
      ensures pos == p
    {
      pos := p;
    }

    /** `read` of `n` bytes. */
    method Read(n: nat) returns (r: Option<seq<Byte>>)
      modifies this
      ensures r == Slice(data, old(pos), n)
      ensures pos == if r.Some? then old(pos) + n else old(pos)
    {
      if pos + n > |data| {
        return None;
      }
      r := Some(data[pos..pos + n]);
      pos := pos + n;
    }

    /** `read` of up to `n` bytes, keeping a short read. */
    method ReadUpTo(n: nat) returns (bs: seq<Byte>)
      modifies this
      ensures bs == Available(data, old(pos), n)
      ensures pos == old(pos) + |bs|
    {
      var end := if pos + n < |data| then pos + n else |data|;
      if pos >= end {
        return [];
      }
      bs := data[pos..end];
      pos := end;
    }

    /** `istream_read_u16`. */
    method ReadU16() returns (r: Option<U16>)
      modifies this
      ensures r == ReadU16At(data, old(pos))
      ensures pos == if r.Some? then old(pos) + 2 else old(pos)
    {
      var bs := Read(2);
      if bs.None? {
        return None;
      }
      r := Some(DecodeU16(bs.value));
    }

    /** `istream_read_u32`. */
    method ReadU32() returns (r: Option<U32>)
      modifies this
      ensures r == ReadU32At(data, old(pos))
      ensures pos == if r.Some? then old(pos) + 4 else old(pos)
    {
      var bs := Read(4);
      if bs.None? {
        return None;
      }
      r := Some(DecodeU32(bs.value));
    }

    /** `istream_read_i32`. */
    method ReadI32() returns (r: Option<I32>)
      modifies this
      ensures r == ReadI32At(data, old(pos))
      ensures pos == if r.Some? then old(pos) + 4 else old(pos)
    {
      var bs := Read(4);
      if bs.None? {
        return None;
      }
      r := Some(DecodeI32(bs.value));
    }

    /** `istream_read_string`: on success it has consumed the two length
        bytes and all `len` payload bytes, one more than it returns. */
    method ReadString() returns (r: Option<string>)
      modifies this
      ensures r == ReadStringAt(data, old(pos))
      ensures pos == if r.Some? then old(pos) + 2 + |r.value| + 1 else old(pos)
    {
      var start := pos;
      var len := ReadU16();
      if len.None? {
        return None;
      }
      var bs := Read(len.value);
      if bs.None? || len.value == 0 {
        pos := start;
        return None;
      }
      r := Some(Chars(bs.value[..len.value - 1]));
    }
  }
}
