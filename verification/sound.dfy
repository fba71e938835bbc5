/** The sound containers stored in the archive as `*.SND` items
    (lastbeer_decrunch.cpp:125-253). A `LEVEL*` item holds several samples
    behind a u16 count and `count` opaque u32 words; any other item holds
    one. Each sample is a 10-byte record header (priority, rate code in
    kHz, flags, data size) followed by its data, unsigned 8-bit PCM or, when
    bit 0 of the flags is set, 4-bit ADPCM. Every sample is written out as
    a WAV file. */
module Sound {
  import opened LittleEndian
  import opened Errors
  import opened Streams
  import opened Wildcard
  import opened Names
  import Adpcm
  import Wave

  /** The folder a decoded file goes to: the archive's items to `beer`,
      the samples to `beer/snd`. */
  datatype Folder = Items | Sounds

  /** One file the decruncher writes. */
  datatype OutFile = OutFile(folder: Folder, name: string, content: seq<Byte>)

  const RecordSize: nat := 10

  /** The header of one sample record. */
  datatype Record = Record(priority: U16, rateCode: U16, flags: U16, size: U32)

  /** The sample rate in Hz, `1000 * code`. */
  function SampleRate(r: Record): (hz: U32)
  {
    1000 * r.rateCode
  }

  /** `snd_flags & 0x01`. */
  predicate IsAdpcm(r: Record)
  {
    r.flags % 2 == 1
  }

  /** The record header at offset `at`, if all ten bytes are there. */
  function ParseRecord(data: seq<Byte>, at: nat): (r: Option<Record>)
    ensures r.Some? <==> at + RecordSize <= |data|
  {
    if at + RecordSize > |data| then None
    else Some(Record(DecodeU16(data[at..at + 2]), DecodeU16(data[at + 2..at + 4]),
                     DecodeU16(data[at + 4..at + 6]), DecodeU32(data[at + 6..at + 10])))
  }

  /** The ten bytes of a record header, as the game's tools wrote them. */
  function EncodeRecord(r: Record): (bs: seq<Byte>)
    ensures |bs| == RecordSize
  {
    EncodeU16(r.priority) + (EncodeU16(r.rateCode) + (EncodeU16(r.flags) + EncodeU32(r.size)))
  }

  /** A record header reads back as written, wherever it sits. */
  lemma RecordReadsBack(pre: seq<Byte>, r: Record, post: seq<Byte>)
    ensures ParseRecord(pre + EncodeRecord(r) + post, |pre|) == Some(r)
  {
    var data := pre + EncodeRecord(r) + post;
    var at := |pre|;
    var bs := EncodeRecord(r);
    assert data[at..at + RecordSize] == bs;
    assert data[at..at + 2] == bs[0..2] == EncodeU16(r.priority);
    assert data[at + 2..at + 4] == bs[2..4] == EncodeU16(r.rateCode);
    assert data[at + 4..at + 6] == bs[4..6] == EncodeU16(r.flags);
    assert data[at + 6..at + 10] == bs[6..10] == EncodeU32(r.size);
    U16RoundTrip(r.priority);
    U16RoundTrip(r.rateCode);
    U16RoundTrip(r.flags);
    U32RoundTrip(r.size);
  }

  /** Where the records start and how many there are. */
  datatype Layout = Layout(count: nat, start: nat)

  const LevelPattern: string := "LEVEL*"

  /** The names `wildcmp("LEVEL*", name)` accepts: those starting with
      "LEVEL" (Wildcard.LevelPattern). */
  predicate IsLevelName(name: string)
  {
    |name| >= 5 && name[..5] == "LEVEL"
  }

  /** A `LEVEL*` item starts with its sample count, then skips `count`
      u32 words; any other item is one record from its first byte. */
  function SampleLayout(name: string, data: seq<Byte>): (l: Option<Layout>)
    ensures IsLevelName(name) ==>
              l == if |data| < 2 then None
                   else Some(Layout(DecodeU16(data[..2]), 2 + 4 * DecodeU16(data[..2])))
    ensures !IsLevelName(name) ==> l == Some(Layout(1, 0))
  {
    if IsLevelName(name) then
      match ReadU16At(data, 0)
      case None => None
      case Some(count) => Some(Layout(count, 2 + 4 * count))
    else Some(Layout(1, 0))
  }

  /** The samples of one record: decoded ADPCM, or the PCM bytes as they
      are. An ADPCM record without data makes the source size its output
      vector `1 + 2 * (0 - 1)`, which throws; the model fails there. */
  function SamplePcm(r: Record, payload: seq<Byte>): (pcm: Result<seq<Byte>>)
    ensures pcm.Ok? <==> !IsAdpcm(r) || |payload| >= 1
    ensures pcm.Err? ==> pcm == Err(EmptyAdpcm)
    ensures pcm.Ok? ==> |pcm.value| == if IsAdpcm(r) then 2 * |payload| - 1 else |payload|
  {
    if !IsAdpcm(r) then Ok(payload)
    else if |payload| == 0 then Err(EmptyAdpcm)
    else Ok(Adpcm.Decode(payload))
  }

  /** The file written for sample `s` of `count`. */
  function SampleFile(name: string, s: nat, count: nat, r: Record, pcm: seq<Byte>): OutFile
  {
    OutFile(Sounds, WavName(Stem(name), s, count), Wave.WavFile(pcm, SampleRate(r)))
  }

  /** Record `s` of `count`, starting at offset `at`: the WAV file it
      yields and the offset where the next record starts. */
  function SampleAt(name: string, data: seq<Byte>, s: nat, count: nat, at: nat): (r: Result<(OutFile, nat)>)
    ensures ParseRecord(data, at).None? ==> r == Err(TruncatedSample)
    ensures r.Ok? ==> && ParseRecord(data, at).Some?
                      && r.value.1 == at + RecordSize + ParseRecord(data, at).value.size <= |data|
                      && r.value.0.folder == Sounds
                      && r.value.0.name == WavName(Stem(name), s, count)
  {
    match ParseRecord(data, at)
    case None => Err(TruncatedSample)
    case Some(r) =>
      var end := at + RecordSize + r.size;
      if end > |data| then Err(TruncatedSample)
      else match SamplePcm(r, data[at + RecordSize..end])
        case Err(e) => Err(e)
        case Ok(pcm) => Ok((SampleFile(name, s, count, r, pcm), end))
  }

  /** The files written for records `s..count - 1`, the one of index `s`
      starting at offset `at`. */
  function Samples(name: string, data: seq<Byte>, s: nat, count: nat, at: nat): (r: Result<seq<OutFile>>)
    ensures r.Ok? ==> |r.value| == if s <= count then count - s else 0
    decreases count - s, 1
  {
    if s >= count then Ok([]) else SampleThenRest(name, data, s, count, at)
  }

  /** Sample `s`, which exists, followed by the samples after it. */
  function SampleThenRest(name: string, data: seq<Byte>, s: nat, count: nat, at: nat): (r: Result<seq<OutFile>>)
    requires s < count
    ensures r.Ok? ==> |r.value| == count - s
    decreases count - s, 0
  {
    match SampleAt(name, data, s, count, at)
    case Err(e) => Err(e)
    case Ok((file, next)) => Prepend([file], Samples(name, data, s + 1, count, next))
  }

  /** The files written for the sound item `name` with content `data`. */
  function SoundFiles(name: string, data: seq<Byte>): (r: Result<seq<OutFile>>)
    ensures r.Ok? ==> SampleLayout(name, data).Some? && |r.value| == SampleLayout(name, data).value.count
  {
    match SampleLayout(name, data)
    case None => Err(TruncatedSample)
    case Some(l) => Samples(name, data, 0, l.count, l.start)
  }

  /** `files` go to the sound folder and are named after the record
      indexes `s, s + 1, ...` of `count`. */
  ghost predicate NamedFrom(files: seq<OutFile>, stem: string, s: nat, count: nat)
  {
    forall j :: 0 <= j < |files| ==> files[j].folder == Sounds && files[j].name == WavName(stem, s + j, count)
  }

  lemma NamedCons(file: OutFile, rest: seq<OutFile>, stem: string, s: nat, count: nat)
    requires file.folder == Sounds && file.name == WavName(stem, s, count)
    requires NamedFrom(rest, stem, s + 1, count)
    ensures NamedFrom([file] + rest, stem, s, count)
  {
    var all := [file] + rest;
    forall j | 0 <= j < |all|
      ensures all[j].folder == Sounds && all[j].name == WavName(stem, s + j, count)
    {
      if j > 0 {
        assert all[j] == rest[(j - 1)];
        assert s + j == (s + 1) + (j - 1);
      }
    }
  }

  /** The files of records `s..` go to the sound folder, each named after
      its own record index. */
  lemma {:induction false} SampleNames(name: string, data: seq<Byte>, s: nat, count: nat, at: nat)
    ensures var r := Samples(name, data, s, count, at);
            r.Ok? ==> NamedFrom(r.value, Stem(name), s, count)
    decreases count - s
  {
    if s < count {
      var step := SampleAt(name, data, s, count, at);
      if step.Ok? {
        var (file, next) := step.value;
        var rest := Samples(name, data, s + 1, count, next);
        SampleNames(name, data, s + 1, count, next);
        assert Samples(name, data, s, count, at) == Prepend([file], rest);
        if rest.Ok? {
          NamedCons(file, rest.value, Stem(name), s, count);
        }
      }
    }
  }

  /** Sample `j` of a sound item is written as `stem_jj.WAV`, or `stem.WAV`
      when it is the only one, into the sound folder. */
  lemma SoundFileNames(name: string, data: seq<Byte>)
    ensures var r := SoundFiles(name, data);
            r.Ok? ==> forall j :: 0 <= j < |r.value| ==>
                        r.value[j].folder == Sounds
                        && r.value[j].name == WavName(Stem(name), j, SampleLayout(name, data).value.count)
  {
    if SampleLayout(name, data).Some? {
      var l := SampleLayout(name, data).value;
      SampleNames(name, data, 0, l.count, l.start);
    }
  }

  /** A plain PCM record's WAV data is its payload unchanged. */
  lemma PcmPassesThrough(r: Record, payload: seq<Byte>)
    requires !IsAdpcm(r)
    ensures SamplePcm(r, payload) == Ok(payload)
  {
  }

  /** A record that parses, fits and decodes yields its file, and the
      next record starts right after its data. */
  lemma SampleAtStep(name: string, data: seq<Byte>, s: nat, count: nat, at: nat, r: Record, pcm: seq<Byte>)
    requires ParseRecord(data, at) == Some(r)
    requires at + RecordSize + r.size <= |data|
    requires SamplePcm(r, data[at + RecordSize..at + RecordSize + r.size]) == Ok(pcm)
    ensures SampleAt(name, data, s, count, at) == Ok((SampleFile(name, s, count, r, pcm), at + RecordSize + r.size))
  {
  }

  /** A record that parses, fits and decodes contributes its file, and the
      samples after it follow from the end of its data. */
  lemma SamplesStep(name: string, data: seq<Byte>, s: nat, count: nat, at: nat, r: Record, pcm: seq<Byte>)
    requires s < count && ParseRecord(data, at) == Some(r)
    requires at + RecordSize + r.size <= |data|
    requires SamplePcm(r, data[at + RecordSize..at + RecordSize + r.size]) == Ok(pcm)
    ensures Samples(name, data, s, count, at) ==
              Prepend([SampleFile(name, s, count, r, pcm)], Samples(name, data, s + 1, count, at + RecordSize + r.size))
  {
    SampleAtStep(name, data, s, count, at, r, pcm);
  }

  /** A record header found at `at` parses as that record. */
  lemma RecordAt(data: seq<Byte>, at: nat, r: Record)
    requires at + RecordSize <= |data| && data[at..at + RecordSize] == EncodeRecord(r)
    ensures ParseRecord(data, at) == Some(r)
  {
    assert data == data[..at] + EncodeRecord(r) + data[at + RecordSize..];
    RecordReadsBack(data[..at], r, data[at + RecordSize..]);
  }

  /** Each sample record takes exactly `10 + size` bytes: a record header
      at offset `at` followed by its data yields one WAV file of those
      samples at the record's rate, and the next record is read at
      `at + 10 + size`. */
  lemma RecordAdvances(name: string, data: seq<Byte>, s: nat, count: nat, at: nat, r: Record, pcm: seq<Byte>)
    requires s < count && at + RecordSize + r.size <= |data|
    requires data[at..at + RecordSize] == EncodeRecord(r)
    requires SamplePcm(r, data[at + RecordSize..at + RecordSize + r.size]) == Ok(pcm)
    ensures Samples(name, data, s, count, at) ==
              Prepend([SampleFile(name, s, count, r, pcm)], Samples(name, data, s + 1, count, at + RecordSize + r.size))
  {
    RecordAt(data, at, r);
    SamplesStep(name, data, s, count, at, r, pcm);
  }

  /** A name that does not start with "LEVEL" has one record at byte 0. */
  lemma SingleLayout(stem: string, data: seq<Byte>)
    requires !IsLevelName(stem)
    ensures SampleLayout(stem + ".SND", data) == Some(Layout(1, 0))
  {
    var name := stem + ".SND";
    if |stem| >= 5 {
      assert name[..5] == stem[..5];
    } else {
      assert name[|stem|] == '.' && "LEVEL"[|stem|] != '.';
    }
  }

  /** `sound.SND` holding one PCM record: a single WAV file named
      `sound.WAV` with the record's bytes at the record's rate. */
  lemma SinglePcmSample(stem: string, r: Record, payload: seq<Byte>)
    requires stem != [] && !IsLevelName(stem)
    requires !IsAdpcm(r) && |payload| == r.size
    ensures SoundFiles(stem + ".SND", EncodeRecord(r) + payload) ==
              Ok([OutFile(Sounds, stem + ".WAV", Wave.WavFile(payload, SampleRate(r)))])
  {
    var name := stem + ".SND";
    var data := EncodeRecord(r) + payload;
    SingleLayout(stem, data);
    ExtensionIsSuffix(name, ".SND");
    StemExtension(name);
    assert Stem(name) == stem;
    RecordReadsBack([], r, payload);
    assert [] + EncodeRecord(r) + payload == data;
    assert data[RecordSize..RecordSize + r.size] == payload;
    SampleAtStep(name, data, 0, 1, 0, r, payload);
    var f := SampleFile(name, 0, 1, r, payload);
    assert [f] + [] == [f];
  }

  /** The ten header bytes of one record, read field by field from the
      data pointer `at`; `None` when they run past the item's end. */
  method ReadRecord(data: seq<Byte>, at: nat) returns (r: Option<Record>, next: nat)
    ensures r == ParseRecord(data, at)
    ensures r.Some? ==> next == at + RecordSize
  {
    next := at;
    if next + RecordSize > |data| {
      return None, next;
    }
    var priority := DecodeU16(data[next..next + 2]);
    next := next + 2;
    var rate := DecodeU16(data[next..next + 2]);
    next := next + 2;
    var flags := DecodeU16(data[next..next + 2]);
    next := next + 2;
    var size := DecodeU32(data[next..next + 4]);
    next := next + 4;
    return Some(Record(priority, rate, flags, size)), next;
  }

  /** The samples of one record: ADPCM data of `size` bytes is decoded
      into `1 + 2 * (size - 1)` samples, PCM data is copied. */
  method ReadSamples(r: Record, payload: seq<Byte>) returns (pcm: Result<seq<Byte>>)
    ensures pcm == SamplePcm(r, payload)
  {
    var is_adpcm := r.flags % 2;
    if is_adpcm == 1 {
      if |payload| == 0 {
        return Err(EmptyAdpcm);
      }
      var samples := Adpcm.DecodeAdpcm(payload);
      return Ok(samples[..]);
    }
    return Ok(payload);
  }

  /** The count and the start of the records: `wildcmp("LEVEL*", name)`
      decides between a counted list and a single record. */
  method ReadLayout(name: string, data: seq<Byte>) returns (l: Option<Layout>)
    requires CString(name)
    ensures l == SampleLayout(name, data)
  {
    var at: nat := 0;
    var snd_count: nat := 1;
    var multi := WildCmp(LevelPattern, name);
    Wildcard.LevelPattern(name);
    if multi != 0 {
      if |data| < 2 {
        return None;
      }
      snd_count := DecodeU16(data[at..at + 2]);
      at := at + 2;
      at := at + snd_count * 4;
    }
    return Some(Layout(snd_count, at));
  }

  /** One pass of the sample loop (lines 148-272): read record `s` at
      `at`, decode its samples and build its WAV file, and advance the data
      pointer past it. */
  method DecodeSample(name: string, data: seq<Byte>, s: nat, count: nat, at: nat) returns (r: Result<(OutFile, nat)>)
    ensures r == SampleAt(name, data, s, count, at)
  {
    var record, start := ReadRecord(data, at);
    if record.None? {
      return Err(TruncatedSample);
    }
    var rec := record.value;
    if start + rec.size > |data| {
      return Err(TruncatedSample);
    }
    var pcm := ReadSamples(rec, data[start..start + rec.size]);
    if pcm.Err? {
      return Err(pcm.error);
    }
    var wav := OutFile(Sounds, WavName(Stem(name), s, count), Wave.WavFile(pcm.value, SampleRate(rec)));
    SampleAtStep(name, data, s, count, at, rec, pcm.value);
    return Ok((wav, start + rec.size));
  }

  /** The sample loop of the source, walking the data pointer `sdata`
      (here the offset `at`) through the item and writing one WAV file per
      record. */
  method DecodeSnd(name: string, data: seq<Byte>) returns (r: Result<seq<OutFile>>)
    requires CString(name)
    ensures r == SoundFiles(name, data)
  {
    var layout := ReadLayout(name, data);
    if layout.None? {
      return Err(TruncatedSample);
    }
    var snd_count: nat := layout.value.count;
    var at: nat := layout.value.start;

    var files: seq<OutFile> := [];
    PrependNothing(Samples(name, data, 0, snd_count, at));
    for s := 0 to snd_count
      invariant SoundFiles(name, data) == Prepend(files, Samples(name, data, s, snd_count, at))
    {
      var sample := DecodeSample(name, data, s, snd_count, at);
      if sample.Err? {
        return Err(sample.error);
      }
      var (wav, next) := sample.value;
      PrependTwice(files, [wav], Samples(name, data, s + 1, snd_count, next));
      files := files + [wav];
      at := next;
    }
    assert Samples(name, data, snd_count, snd_count, at) == Ok([]);
    assert files + [] == files;
    return Ok(files);
  }
}
