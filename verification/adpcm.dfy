/** The 4-bit ADPCM decoder of lastbeer_decrunch.cpp:175-246, the Creative
    "8 bits to 4 bits" ADPCM variant. Byte 0 of the payload is the first
    sample; every later byte holds two 4-bit codes, high nibble first. Each
    code carries a sign (bit 3) and a magnitude (bits 0-2); the magnitude,
    shifted left by the current step, moves the predictor, which is clamped
    to 0..255 and written out; the step then adapts within 0..3. */
module Adpcm {
  import opened LittleEndian

  /** `limit`: a magnitude at or above it widens the step. */
  const Limit: int := 5
  /** `shift`: an extra left shift, always 0 in the source. */
  const Shift: StepIndex := 0

  /** The range the loop keeps `step` in. */
  type StepIndex = s: int | 0 <= s <= 3

  /** The decoder's local variables `byte` and `step` between two codes. */
  datatype Decoder = Decoder(predictor: Byte, step: StepIndex)

  /** `v << n`, for the shift counts 0..3 the decoder can reach. */
  function ShiftLeft(v: int, n: StepIndex): int
  {
    if n == 0 then v else if n == 1 then 2 * v else if n == 2 then 4 * v else 8 * v
  }

  function Min(a: int, b: int): int { if a <= b then a else b }
  function Max(a: int, b: int): int { if a >= b then a else b }

  /** Bits 0-2 of a code. Codes are the nibbles 0..15 of a payload byte;
      the functions on codes take any `int` and are only applied to those. */
  function Magnitude(code: int): int
  {
    code % 8
  }

  /** The signed amount a code moves the predictor by at the given step:
      `sign * (value << (step + shift))`, the sign being bit 3 of the code;
      the shift by `step + shift` is taken as a shift by `step`, then by
      `shift`. */
  function Delta(step: StepIndex, code: int): int
  {
    var amount := ShiftLeft(ShiftLeft(Magnitude(code), step), Shift);
    if code >= 8 then -amount else amount
  }

  /** Decode one 4-bit code: move and clamp the predictor, then adapt and
      clamp the step. */
  function DecodeCode(d: Decoder, code: int): Decoder
  {
    var moved := d.predictor + Delta(d.step, code);
    var capped := if moved > 0xff then 0xff else moved;
    var value := Magnitude(code);
    var adapted := if value >= Limit then d.step + 1 else if value == 0 then d.step - 1 else d.step;
    var bounded := if adapted > 3 then 3 else adapted;
    Decoder(if capped < 0 then 0 else capped, if bounded < 0 then 0 else bounded)
  }

  /** The predictor moves by the code's signed, step-shifted magnitude and
      saturates at 0 and 255: it clamps and never wraps around. */
  lemma PredictorClamps(d: Decoder, code: int)
    requires 0 <= code < 16
    ensures var target := d.predictor + Delta(d.step, code);
            var e := DecodeCode(d, code);
            && (target > 255 ==> e.predictor == 255)
            && (target < 0 ==> e.predictor == 0)
            && (0 <= target <= 255 ==> e.predictor == target)
  {
  }

  /** The predictor holds still on a zero magnitude, and it never moves
      against the code's sign. */
  lemma PredictorFollowsSign(d: Decoder, code: int)
    requires 0 <= code < 16
    ensures Magnitude(code) == 0 ==> DecodeCode(d, code).predictor == d.predictor
    ensures code < 8 ==> DecodeCode(d, code).predictor >= d.predictor
    ensures code >= 8 ==> DecodeCode(d, code).predictor <= d.predictor
  {
  }

  /** The step grows by one (up to 3) after a magnitude of at least 5,
      shrinks by one (down to 0) after a magnitude of 0, and stays otherwise. */
  lemma StepAdapts(d: Decoder, code: int)
    requires 0 <= code < 16
    ensures DecodeCode(d, code).step ==
              if code % 8 >= 5 then Min(d.step + 1, 3)
              else if code % 8 == 0 then Max(d.step - 1, 0)
              else d.step
  {
  }

  /** The decoding loop over the first `n` payload bytes, for a given
      per-code update `next`: the decoder state it leaves and the samples it
      has written. Keeping `next` a parameter lets the facts about the
      loop's shape be proved once, apart from the arithmetic of one code. */
  function Run(next: (Decoder, int) -> Decoder, src: seq<Byte>, n: nat): (r: (Decoder, seq<Byte>))
    requires 1 <= n <= |src|
    ensures |r.1| == 2 * n - 1 && r.1[0] == src[0]
    decreases n
  {
    if n == 1 then (Decoder(src[0], 0), [src[0]])
    else
      var before := Run(next, src, n - 1);
      var b := src[n - 1];
      var high := next(before.0, b / 16);
      var low := next(high, b % 16);
      (low, before.1 + [high.predictor, low.predictor])
  }

  /** The decoder state left after a whole payload of at least one byte. */
  function Final(src: seq<Byte>): Decoder
    requires |src| >= 1
  {
    Run(DecodeCode, src, |src|).0
  }

  /** The PCM samples decoded from an ADPCM payload of at least one byte:
      one sample for the seed byte and two for every later byte. */
  function Decode(src: seq<Byte>): (pcm: seq<Byte>)
    requires |src| >= 1
    ensures |pcm| == 1 + 2 * (|src| - 1)
    ensures pcm[0] == src[0]
  {
    Run(DecodeCode, src, |src|).1
  }

  /** The loop over the first `n` bytes reads those bytes only. */
  lemma {:induction false} RunOnPrefix(next: (Decoder, int) -> Decoder, src: seq<Byte>, n: nat, m: nat)
    requires 1 <= n <= m <= |src|
    ensures Run(next, src[..m], n) == Run(next, src, n)
    decreases n
  {
    if n > 1 {
      RunOnPrefix(next, src, n - 1, m);
    }
  }

  /** Later bytes only append samples to those of earlier bytes. */
  lemma {:induction false} RunExtends(next: (Decoder, int) -> Decoder, src: seq<Byte>, n: nat, m: nat)
    requires 1 <= n <= m <= |src|
    ensures Run(next, src, n).1 == Run(next, src, m).1[..2 * n - 1]
    decreases m
  {
    if n < m {
      RunExtends(next, src, n, m - 1);
    }
  }

  /** One more byte runs its high and then its low code from the state
      the earlier bytes left. */
  lemma RunAppend(next: (Decoder, int) -> Decoder, src: seq<Byte>, b: Byte)
    requires |src| >= 1
    ensures var before := Run(next, src, |src|);
            var high := next(before.0, b / 16);
            var low := next(high, b % 16);
            Run(next, src + [b], |src| + 1) == (low, before.1 + [high.predictor, low.predictor])
  {
    assert (src + [b])[..|src|] == src;
    RunOnPrefix(next, src + [b], |src|, |src|);
  }

  /** Decoding is causal: decoding a prefix of the payload yields a prefix
      of the samples, so no sample depends on a later byte. */
  lemma DecodePrefix(src: seq<Byte>, n: nat)
    requires 1 <= n <= |src|
    ensures Decode(src[..n]) == Decode(src)[..2 * n - 1]
  {
    RunOnPrefix(DecodeCode, src, n, n);
    RunExtends(DecodeCode, src, n, |src|);
  }

  /** Decoding is incremental: one more payload byte appends exactly two
      samples, those of its high and then its low code applied to the state
      the earlier bytes left. */
  lemma DecodeAppend(src: seq<Byte>, b: Byte)
    requires |src| >= 1
    ensures var high := DecodeCode(Final(src), b / 16);
            var low := DecodeCode(high, b % 16);
            && Decode(src + [b]) == Decode(src) + [high.predictor, low.predictor]
            && Final(src + [b]) == low
  {
    RunAppend(DecodeCode, src, b);
  }

  /** One pass of the loop body: byte `i`'s two codes, run from the state
      the bytes before it left, extend the run by one byte. */
  lemma RunStep(src: seq<Byte>, i: nat, high: Decoder, low: Decoder)
    requires 1 <= i < |src|
    requires high == DecodeCode(Run(DecodeCode, src, i).0, src[i] / 16)
    requires low == DecodeCode(high, src[i] % 16)
    ensures Run(DecodeCode, src, i + 1) == (low, Run(DecodeCode, src, i).1 + [high.predictor, low.predictor])
  {
  }

  /** The statements the loop body runs for one code; the source writes
      them out twice, for the high and for the low nibble. */
  method DecodeNibble(byte0: Byte, step0: StepIndex, code: int) returns (byte: Byte, step: StepIndex)
    requires 0 <= code < 16
    ensures Decoder(byte, step) == DecodeCode(Decoder(byte0, step0), code)
  {
    var sign := if code >= 8 then -1 else 1;  // test bit 3
    var value := code % 8;                    // clear bit 3
    var moved := byte0 + sign * ShiftLeft(value, step0 + Shift);
    if moved > 0xff { moved := 0xff; }
    if moved < 0x00 { moved := 0x00; }
    byte := moved;
    var s: int := step0;
    if value >= Limit { s := s + 1; }
    else if value == 0 { s := s - 1; }
    if s > 3 { s := 3; }
    if s < 0 { s := 0; }
    step := s;
  }

  /** `assign(n, v)`: `n` copies of `v`. */
  function Fill(n: nat, v: Byte): (s: seq<Byte>)
    ensures |s| == n && forall k :: 0 <= k < n ==> s[k] == v
  {
    if n == 0 then [] else Fill(n - 1, v) + [v]
  }

  /** A new buffer of `n` copies of `v`, as `assign(n, v)` leaves it. */
  method Assign(n: nat, v: Byte) returns (a: array<Byte>)
    ensures fresh(a) && a[..] == Fill(n, v)
  {
    a := new Byte[n](_ => v);
    assert a[..] == Fill(n, v);
  }

  /** After `i` bytes the decoder is at `(byte, step)` and has written `out`. */
  ghost predicate Decoded(sdata: seq<Byte>, i: nat, byte: Byte, step: StepIndex, out: seq<Byte>)
    requires 1 <= i <= |sdata|
  {
    Run(DecodeCode, sdata, i) == (Decoder(byte, step), out)
  }

  /** One pass of the loop body: byte `i`'s two codes overwrite samples
      `2i - 1` and `2i`, extending the run of the bytes before it. */
  method DecodeByte(pcm: array<Byte>, sdata: seq<Byte>, i: nat, byte0: Byte, step0: StepIndex)
    returns (byte: Byte, step: StepIndex)
    requires 1 <= i < |sdata| && pcm.Length == 2 * |sdata| - 1
    requires Decoded(sdata, i, byte0, step0, pcm[..2 * i - 1])
    modifies pcm
    ensures Decoded(sdata, i + 1, byte, step, pcm[..2 * i + 1])
    ensures pcm[2 * i + 1..] == old(pcm[2 * i + 1..])
  {
    ghost var written := pcm[..2 * i - 1];
    byte, step := DecodeNibble(byte0, step0, sdata[i] / 16);
    pcm[2 * i - 1] := byte;
    ghost var high, hstep := byte, step;
    byte, step := DecodeNibble(byte, step, sdata[i] % 16);
    pcm[2 * i] := byte;
    RunStep(sdata, i, Decoder(high, hstep), Decoder(byte, step));
    assert pcm[..2 * i + 1] == written + [high, byte];
  }

  /** The decoding loop, from the seed sample written into `pcm`. */
  method DecodeLoop(pcm: array<Byte>, sdata: seq<Byte>)
    requires |sdata| >= 1 && pcm.Length == 2 * |sdata| - 1 && pcm[0] == sdata[0]
    modifies pcm
    ensures pcm[..] == Decode(sdata)
  {
    var snd_size := |sdata|;
    var step: StepIndex := 0;
    var byte: Byte := sdata[0];
    assert pcm[..1] == [byte];
    for i := 1 to snd_size
      invariant Decoded(sdata, i, byte, step, pcm[..2 * i - 1])
    {
      byte, step := DecodeByte(pcm, sdata, i, byte, step);
    }
    assert pcm[..2 * snd_size - 1] == pcm[..];
  }

  /** `pcm.assign(1 + 2*(snd_size - 1), 0x80)`, the seed sample, then the
      decoding loop, which overwrites samples `2i - 1` and `2i` from byte `i`. */
  method DecodeAdpcm(sdata: seq<Byte>) returns (pcm: array<Byte>)
    requires |sdata| >= 1
    ensures fresh(pcm) && pcm[..] == Decode(sdata)
  {
    var snd_size := |sdata|;
    pcm := Assign(1 + 2 * (snd_size - 1), 0x80);
    pcm[0] := sdata[0];
    DecodeLoop(pcm, sdata);
  }

  /** A rising run of large codes saturates at 255 instead of wrapping. */
  lemma ClampsHigh()
    ensures Decode([250, 0x77]) == [250, 255, 255]
  {
  }

  /** A falling run of large codes saturates at 0 instead of wrapping. */
  lemma ClampsLow()
    ensures Decode([3, 0xFF]) == [3, 0, 0]
  {
  }

  /** A payload of one byte decodes to that byte alone. */
  lemma SeedOnly(seed: Byte)
    ensures Decode([seed]) == [seed]
  {
  }
}
