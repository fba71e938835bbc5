/** The RIFF/WAVE file written for every decoded sample
    (lastbeer_decrunch.cpp:256-272): a canonical 44-byte header for mono,
    8-bit unsigned PCM at the given rate, then the samples. */
module Wave {
  import opened LittleEndian

  const HeaderSize: nat := 44

  /** The four-character chunk tags, as bytes. */
  const Riff: seq<Byte> := [0x52, 0x49, 0x46, 0x46]  // "RIFF"
  const WaveTag: seq<Byte> := [0x57, 0x41, 0x56, 0x45]  // "WAVE"
  const Fmt: seq<Byte> := [0x66, 0x6d, 0x74, 0x20]  // "fmt "
  const DataTag: seq<Byte> := [0x64, 0x61, 0x74, 0x61]  // "data"

  /** A u32 field as the source writes it from an `int`: reduced modulo
      2^32, which only matters for data of 4 GiB or more. */
  function Field32(v: nat): U32
  {
    v % TwoTo32
  }

  /** The RIFF chunk header: tag, size `len + 36` and form type "WAVE". */
  function RiffHeader(len: nat): (h: seq<Byte>)
    ensures |h| == 12
  {
    Riff + (EncodeU32(Field32(len + 36)) + WaveTag)
  }

  /** The "fmt " chunk: size 16, format tag 1 (PCM), one channel, the
      sample rate, byte rate = sample rate, block align 1, 8 bits. */
  function FmtChunk(rate: U32): (h: seq<Byte>)
    ensures |h| == 24
  {
    Fmt + (EncodeU32(16) + (EncodeU16(1) + (EncodeU16(1)
    + (EncodeU32(rate) + (EncodeU32(rate) + (EncodeU16(1) + EncodeU16(8)))))))
  }

  /** The "data" chunk header: tag and size `len`. */
  function DataHeader(len: nat): (h: seq<Byte>)
    ensures |h| == 8
  {
    DataTag + EncodeU32(Field32(len))
  }

  /** The bytes of the WAV file for `pcm` at `rate` Hz. */
  function WavFile(pcm: seq<Byte>, rate: U32): (wav: seq<Byte>)
    ensures |wav| == HeaderSize + |pcm| && wav[HeaderSize..] == pcm
  {
    RiffHeader(|pcm|) + (FmtChunk(rate) + (DataHeader(|pcm|) + pcm))
  }

  lemma RiffLayout(len: nat)
    requires len + 36 < TwoTo32
    ensures var h := RiffHeader(len);
            h[0..4] == Riff && DecodeU32(h[4..8]) == len + 36 && h[8..12] == WaveTag
  {
    var h := RiffHeader(len);
    var size := EncodeU32(Field32(len + 36));
    assert Field32(len + 36) == len + 36;
    assert h == Riff + size + WaveTag;
    assert h[4..8] == size;
    U32RoundTrip(len + 36);
  }

  lemma FmtLayout(rate: U32)
    ensures var h := FmtChunk(rate);
            && h[0..4] == Fmt
            && DecodeU32(h[4..8]) == 16
            && DecodeU16(h[8..10]) == 1
            && DecodeU16(h[10..12]) == 1
            && DecodeU32(h[12..16]) == rate
            && DecodeU32(h[16..20]) == rate
            && DecodeU16(h[20..22]) == 1
            && DecodeU16(h[22..24]) == 8
  {
    var h := FmtChunk(rate);
    assert h[4..8] == EncodeU32(16);
    assert h[8..10] == EncodeU16(1);
    assert h[10..12] == EncodeU16(1);
    assert h[12..16] == EncodeU32(rate);
    assert h[16..20] == EncodeU32(rate);
    assert h[20..22] == EncodeU16(1);
    assert h[22..24] == EncodeU16(8);
    U32RoundTrip(16);
    U16RoundTrip(1);
    U32RoundTrip(rate);
    U16RoundTrip(8);
  }

  lemma DataLayout(len: nat)
    requires len < TwoTo32
    ensures var h := DataHeader(len);
            h[0..4] == DataTag && DecodeU32(h[4..8]) == len
  {
    var h := DataHeader(len);
    assert h[4..8] == EncodeU32(len);
    U32RoundTrip(len);
  }

  /** The file is the three chunk headers, 44 bytes in all, followed by
      the samples unchanged; the three lemmas above give each header's
      fields at their canonical offsets. */
  lemma WavLayout(pcm: seq<Byte>, rate: U32)
    ensures var wav := WavFile(pcm, rate);
            && |wav| == HeaderSize + |pcm|
            && wav[0..12] == RiffHeader(|pcm|)
            && wav[12..36] == FmtChunk(rate)
            && wav[36..44] == DataHeader(|pcm|)
            && wav[HeaderSize..] == pcm
  {
  }

  /** Two files with the same header fields differ exactly where their
      samples do: the header depends on the samples' count only. */
  lemma WavHeaderDependsOnLength(p: seq<Byte>, q: seq<Byte>, rate: U32)
    requires |p| == |q|
    ensures WavFile(p, rate)[..HeaderSize] == WavFile(q, rate)[..HeaderSize]
    ensures WavFile(p, rate) == WavFile(q, rate) <==> p == q
  {
    WavLayout(p, rate);
    WavLayout(q, rate);
  }
}
