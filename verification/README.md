# Eichhof Lastbeer BEER.DAT decruncher, modelled in Dafny

The decruncher reads the game archive `BEER.DAT` and does four things:

- It checks the 28-byte type identifier `ALPHA-HELIX COMBINER VER 3.3`.
- It reads three u16 header fields. The last one is the item count.
- It walks the directory of 24-byte entries. Each entry holds a NUL-padded 14-byte name, a u32 size, u16 flags and a u32 absolute offset.
- It writes every item out unchanged.

Items whose extension is `.SND` are sound containers, and each is also decoded into WAV files:

- A `LEVEL*` item starts with a u16 sample count and `count` opaque u32 words. Any other item holds one sample.
- Each sample is a 10-byte record: priority, rate in kHz, flags and data size. The record is followed by its data.
- If bit 0 of the flags is clear, the data is unsigned 8-bit PCM and is copied as it is.
- If bit 0 is set, the data is Creative 4-bit ADPCM. Byte 0 is the seed sample, and every later byte packs two codes, high nibble first.
- Every sample becomes a canonical 44-byte-header RIFF/WAVE file named `stem_%02d.WAV`, or `stem.WAV` when the item holds a single sample.

The helper file `other.cpp` holds the pieces the decruncher calls:

- the wildcard matcher `wildcmp`, used on the item name;
- the little-endian u16 and u32 stream readers and writers.

It also holds helpers the decruncher does not call, which are modelled with the rest of `other.cpp`:

- the case-insensitive `iequals`;
- the i32 reader and writer;
- the length-prefixed string reader.

The project has one module per concern:

| file | module | models |
|---|---|---|
| `errors.dfy` | `Errors` | `Option` and `Result`. The source stops only on a wrong type identifier or on an exception caught by its one `catch`. It reads on silently after a short read or past the end of a buffer. The model turns each of these silent failures into a named `Error`. |
| `bytes.dfy` | `LittleEndian` | byte, u16, u32 and i32 (two's complement) codecs, and their round trips |
| `streams.dfy` | `Streams` | `class InputStream`, the binary `std::ifstream` (its content and cursor), with `read`, `tellg`, `seekg` and the `istream_read_*` helpers |
| `wildcard.dfy` | `Wildcard` | `wildcmp` as three loops, proved equal to a recursive reference matcher |
| `casefold.dfy` | `CaseFold` | `iequals` |
| `names.dfy` | `Names` | `path::extension()` and `path::stem()` on plain names, `%02d`, and the WAV output name |
| `adpcm.dfy` | `Adpcm` | the ADPCM decoding loop. It fills a pre-sized `array` in place and is proved equal to a recursive specification. |
| `wave.dfy` | `Wave` | the RIFF/WAVE header and file |
| `sound.dfy` | `Sound` | the `.SND` layout, the sample records and the per-sample loop |
| `archive.dfy` | `Archive` | the type identifier, the header, the directory, positioned extraction and the item loop |

Each loop of the source is a `method` proved against a function that specifies it. The output of a run is modelled as the list of files (`OutFile`: folder, name, content) the decruncher writes, in order; `Archive.Decrunch` gives that list.

An ADPCM record with data size 0 stops the run:

- The code sizes the output vector as `1 + 2*(snd_size - 1)`. For size 0 that is `(size_t)-1`.
- `assign` then throws, and the archive is abandoned.
- The model returns `Err(EmptyAdpcm)` for size 0 (`Sound.SamplePcm`).

## Model

| member | source | states |
|---|---|---|
| LittleEndian.U16RoundTrip | other.cpp:96-100 | a u16 written low byte first reads back as the same value |
| LittleEndian.U16BytesRoundTrip | other.cpp:118-123 | any two bytes read as a u16 are written back as the same two bytes |
| LittleEndian.U32RoundTrip | other.cpp:89-93 | a u32 written little-endian reads back as the same value |
| LittleEndian.U32BytesRoundTrip | other.cpp:110-115 | any four bytes read as a u32 are written back as the same four bytes |
| LittleEndian.I32RoundTrip | other.cpp:103-107 | an i32 written as its two's-complement bit pattern reads back as the same signed value |
| LittleEndian.I32BytesRoundTrip | other.cpp:126-131 | any four bytes read as an i32 are written back as the same four bytes |
| LittleEndian.EncodeU16 | other.cpp:96-100 | `ostream_write_u16` writes exactly two bytes |
| LittleEndian.DecodeU16 | other.cpp:118-123 | the first byte read is the low byte of the value and the second the high byte |
| LittleEndian.EncodeU32 | other.cpp:89-93 | `ostream_write_u32` writes exactly four bytes |
| LittleEndian.DecodeU32 | other.cpp:110-115 | the first two bytes read are the low half of the value and the last two the high half |
| LittleEndian.EncodeI32 | other.cpp:103-107 | `ostream_write_i32` writes exactly four bytes |
| LittleEndian.DecodeI32 | other.cpp:126-131 | the value is negative iff the top bit of the last byte is set, and it is the u32 reading less 2^32 then |
| LittleEndian.Chars | lastbeer_decrunch.cpp:96 | bytes read into a `char` buffer give one character per byte, with the same code |
| LittleEndian.Latin1Chars | lastbeer_decrunch.cpp:96 | characters read from bytes turn back into the same bytes |
| Streams.Available | lastbeer_decrunch.cpp:66 | a read of `n` bytes gets at most `n` bytes; it gets exactly `n`, the bytes at the cursor, exactly when they are all there |
| Streams.ReadU16At | other.cpp:118-123 | a u16 can be read at an offset iff two bytes are there |
| Streams.ReadU32At | other.cpp:110-115 | a u32 can be read at an offset iff four bytes are there |
| Streams.ReadI32At | other.cpp:126-131 | an i32 can be read at an offset iff four bytes are there |
| Streams.ReadStringAt | other.cpp:77-86 | a string item can be read iff its u16 length `len` is at least 1 and all `len` bytes follow it; the string then has `len - 1` characters |
| Streams.SliceReadsBack | other.cpp:89-107 | bytes written at any position are found again at that position, whatever precedes or follows them |
| Streams.U16ReadsBack | other.cpp:118-123 | `istream_read_u16` at the position of a written u16 returns its value |
| Streams.U32ReadsBack | other.cpp:110-115 | `istream_read_u32` at the position of a written u32 returns its value |
| Streams.I32ReadsBack | other.cpp:126-131 | `istream_read_i32` at the position of a written i32 returns its value |
| Streams.StringReadsBack | other.cpp:77-86 | a string written as u16 length+1, its bytes and a terminator reads back as the string, without the terminator |
| Streams.EmptyStringFails | other.cpp:81-84 | a string item of length 0 is refused |
| Streams.InputStream.constructor | lastbeer_decrunch.cpp:54 | a freshly opened stream has its content and its cursor at 0 |
| Streams.InputStream.Tell | lastbeer_decrunch.cpp:112 | `tellg` returns the cursor |
| Streams.InputStream.Seek | lastbeer_decrunch.cpp:113 | `seekg` sets the cursor to any position |
| Streams.InputStream.Read | lastbeer_decrunch.cpp:114 | a read of `n` bytes returns the `n` bytes at the cursor and advances past them; when they are not all there it fails and leaves the cursor alone |
| Streams.InputStream.ReadUpTo | lastbeer_decrunch.cpp:66 | a read keeping a short read returns the bytes available at the cursor, at most `n`, and advances by their number |
| Streams.InputStream.ReadU16 | other.cpp:118-123 | decodes the two bytes at the cursor little-endian and advances by 2 |
| Streams.InputStream.ReadU32 | other.cpp:110-115 | decodes the four bytes at the cursor little-endian and advances by 4 |
| Streams.InputStream.ReadI32 | other.cpp:126-131 | decodes the four bytes at the cursor as a two's-complement value and advances by 4 |
| Streams.InputStream.ReadString | other.cpp:77-86 | reads a u16 length `len` and `len` bytes. It returns the first `len - 1` as characters and consumes `2 + len` bytes. `len = 0` and a short read fail. |
| Wildcard.WildCmp | other.cpp:7-42 | `wildcmp` returns 1 when the pattern matches the whole string (`?` any one character, `*` any run) and 0 otherwise, and it terminates |
| Wildcard.LiteralHead | other.cpp:12-18 | the first loop compares up to the first `*`. A mismatch there means no match; otherwise it stops at a `*` or at the string's end, and matching is decided from there. |
| Wildcard.StarScan | other.cpp:20-36 | the backtracking loop consumes the string. A final `*` is a match; otherwise the rest of the pattern must match the empty remainder. |
| Wildcard.TrailingStars | other.cpp:38-41 | after the string is used up, the pattern matches exactly when only `*`s remain |
| Wildcard.PassStar | other.cpp:21-27 | a `*` that ends the pattern decides a match; any other `*` becomes the backtracking mark |
| Wildcard.MatchOne | other.cpp:28-31 | a matching character extends the literal run after the mark |
| Wildcard.Backtrack | other.cpp:32-35 | on a mismatch after the mark, the run is retried one character further along the string, losing no match |
| Wildcard.Greedy | other.cpp:20-36 | backtracking only to the latest `*` loses no match |
| Wildcard.FinalStar | other.cpp:22-23 | a final `*` matches every remaining suffix |
| Wildcard.LiteralMatches | other.cpp:12-18 | a pattern without wildcards matches a string iff the two are equal |
| Wildcard.PrefixStar | other.cpp:7-42 | `prefix*` matches exactly the strings starting with `prefix` |
| Wildcard.LevelPattern | lastbeer_decrunch.cpp:136 | `wildcmp("LEVEL*", name)` holds iff `name` starts with `LEVEL` |
| Wildcard.StarMatchesAll | other.cpp:21-24 | `*` matches every string, the empty one included |
| Wildcard.QuestionMatchesOne | other.cpp:13 | `?` matches exactly the one-character strings |
| Wildcard.FirstMismatchRejects | other.cpp:13-15 | a mismatch before any `*` rejects, whatever follows |
| CaseFold.ToLower | other.cpp:71 | only `A`..`Z` change, each to its lower-case letter |
| CaseFold.IEquals | other.cpp:66-73 | `iequals` holds iff the strings have the same length and are pairwise equal after lower-casing |
| CaseFold.IEqualsReflexive | other.cpp:66-73 | every string equals itself |
| CaseFold.IEqualsSymmetric | other.cpp:66-73 | the comparison does not depend on argument order |
| CaseFold.IEqualsTransitive | other.cpp:66-73 | the comparison is transitive |
| CaseFold.IEqualsIgnoresCase | other.cpp:70-72 | strings that differ only in the case of ASCII letters compare equal |
| Names.LastDot | lastbeer_decrunch.cpp:126 | finds the last `.` of a name, or -1 when it has none |
| Names.Extension | lastbeer_decrunch.cpp:126 | `extension()` is a suffix of the name, empty or starting with `.` |
| Names.Stem | lastbeer_decrunch.cpp:149 | `stem()` is a prefix of the name, followed by the extension's `.` when it is shorter than the name |
| Names.Pad2 | lastbeer_decrunch.cpp:152 | `%02d` prints at least two characters |
| Names.WavName | lastbeer_decrunch.cpp:149-154 | the output name starts with the stem and ends with `.WAV` |
| Names.StemExtension | lastbeer_decrunch.cpp:126 | stem and extension split the name. The extension is empty or one `.` with no further dot, and the stem is non-empty when the extension is not. |
| Names.ExtensionIsSuffix | lastbeer_decrunch.cpp:126 | `extension() == ".SND"` iff the name ends with `.SND` and has something before it |
| Names.DecimalReadsBack | lastbeer_decrunch.cpp:152 | a number printed in decimal reads back as itself |
| Names.Pad2ReadsBack | lastbeer_decrunch.cpp:152 | `%02d` prints digits that read back as the number, exactly two of them below 100 |
| Names.WavNameParts | lastbeer_decrunch.cpp:149-154 | the output name has extension `.WAV` and stem `stem_NN` when the item holds several samples, else `stem` |
| Names.WavNamesDistinct | lastbeer_decrunch.cpp:149-154 | different samples of one item get different names |
| Adpcm.PredictorClamps | lastbeer_decrunch.cpp:200-211 | the predictor moves by the signed, step-shifted magnitude and saturates at 0 and 255, never wrapping |
| Adpcm.StepAdapts | lastbeer_decrunch.cpp:213-220 | the step grows by one (at most 3) after a magnitude ≥ 5, shrinks by one (at least 0) after magnitude 0, and otherwise stays |
| Adpcm.PredictorFollowsSign | lastbeer_decrunch.cpp:200-209 | a code of magnitude 0 leaves the predictor alone; a code without bit 3 never lowers it and one with bit 3 never raises it |
| Adpcm.Run | lastbeer_decrunch.cpp:196-245 | after the first `n` payload bytes the loop has written `2n - 1` samples, the first of them the seed byte |
| Adpcm.Decode | lastbeer_decrunch.cpp:185-199 | a payload of `N ≥ 1` bytes decodes to `1 + 2(N - 1)` samples, the first being the seed byte |
| Adpcm.DecodePrefix | lastbeer_decrunch.cpp:199-245 | decoding is causal: a prefix of the payload decodes to a prefix of the samples |
| Adpcm.DecodeAppend | lastbeer_decrunch.cpp:199-245 | one more byte appends exactly two samples, its high then its low code, run from the state the earlier bytes left |
| Adpcm.RunStep | lastbeer_decrunch.cpp:200-244 | one loop pass extends the decoding of the first `i` bytes to `i + 1` bytes |
| Adpcm.DecodeNibble | lastbeer_decrunch.cpp:200-220 | the statements run for one code compute the code's decoder step |
| Adpcm.Fill | lastbeer_decrunch.cpp:185 | `assign(n, v)` gives `n` copies of `v` |
| Adpcm.Assign | lastbeer_decrunch.cpp:185 | a new buffer holds `n` copies of `v` |
| Adpcm.DecodeByte | lastbeer_decrunch.cpp:199-245 | one pass writes samples `2i - 1` and `2i` in place and keeps the buffer's prefix equal to the decoding of the first `i + 1` bytes, and leaves every later sample as it was |
| Adpcm.DecodeLoop | lastbeer_decrunch.cpp:196-245 | from the seed sample, the loop fills the buffer with exactly the decoded samples |
| Adpcm.DecodeAdpcm | lastbeer_decrunch.cpp:185-246 | a fresh buffer of `1 + 2(N - 1)` samples holds the decoding of the payload |
| Adpcm.ClampsHigh | lastbeer_decrunch.cpp:206-207 | a rising run saturates at 255 |
| Adpcm.ClampsLow | lastbeer_decrunch.cpp:208-209 | a falling run saturates at 0 |
| Adpcm.SeedOnly | lastbeer_decrunch.cpp:196-199 | a one-byte payload decodes to that byte alone |
| Wave.RiffLayout | lastbeer_decrunch.cpp:258-260 | the RIFF header is `RIFF`, the size `len + 36`, then `WAVE` |
| Wave.FmtLayout | lastbeer_decrunch.cpp:261-268 | the `fmt ` chunk has size 16, PCM, mono, the rate as sample and byte rate, block align 1 and 8 bits |
| Wave.DataLayout | lastbeer_decrunch.cpp:269-270 | the `data` chunk header is `data` and the sample count |
| Wave.WavLayout | lastbeer_decrunch.cpp:256-272 | the file is the three headers, 44 bytes in all, followed by the samples unchanged |
| Wave.WavHeaderDependsOnLength | lastbeer_decrunch.cpp:256-272 | the header depends only on the sample count and rate, and two files are equal iff their samples are |
| Wave.RiffHeader | lastbeer_decrunch.cpp:258-260 | the RIFF chunk header takes 12 bytes |
| Wave.FmtChunk | lastbeer_decrunch.cpp:261-268 | the `fmt ` chunk takes 24 bytes |
| Wave.DataHeader | lastbeer_decrunch.cpp:269-270 | the `data` chunk header takes 8 bytes |
| Wave.WavFile | lastbeer_decrunch.cpp:256-272 | the WAV file is 44 header bytes followed by the samples unchanged |
| Sound.RecordReadsBack | lastbeer_decrunch.cpp:158-168 | a 10-byte record header reads back as its priority, rate code, flags and size, wherever it sits |
| Sound.ParseRecord | lastbeer_decrunch.cpp:158-168 | a record header can be read at an offset iff its 10 bytes are there |
| Sound.RecordAt | lastbeer_decrunch.cpp:158-168 | record header bytes found at an offset parse as that record |
| Sound.ReadRecord | lastbeer_decrunch.cpp:158-168 | reading the four fields field by field gives the record at the data pointer, which moves by 10 |
| Sound.SampleLayout | lastbeer_decrunch.cpp:133-143 | for a `LEVEL*` name the count is the first u16 and the records start at `2 + 4·count`; otherwise the count is 1 and they start at 0 |
| Sound.ReadLayout | lastbeer_decrunch.cpp:133-143 | `wildcmp("LEVEL*", name)` and the pointer arithmetic give that layout |
| Sound.SingleLayout | lastbeer_decrunch.cpp:133-136 | `x.SND` with `x` not starting with `LEVEL` holds one record at byte 0 |
| Sound.PcmPassesThrough | lastbeer_decrunch.cpp:247-251 | raw PCM data is written unchanged |
| Sound.SamplePcm | lastbeer_decrunch.cpp:175-251 | a record's samples exist iff it is PCM or has at least one ADPCM byte. There are `2N - 1` ADPCM samples or `N` PCM samples. An empty ADPCM record is the only failure. |
| Sound.SampleAt | lastbeer_decrunch.cpp:148-252 | a record that yields a file has a header at `at`, its data within the item, and a next record at `at + 10 + size`. The file goes to the sound folder under the sample's name. A missing header fails. |
| Sound.Samples | lastbeer_decrunch.cpp:146-274 | the records from `s` on yield exactly one file each |
| Sound.SampleThenRest | lastbeer_decrunch.cpp:146-274 | a record that exists and the records after it yield exactly one file each |
| Sound.SoundFiles | lastbeer_decrunch.cpp:129-274 | a sound item that decodes yields exactly as many files as its layout has records |
| Sound.SamplesStep | lastbeer_decrunch.cpp:146-252 | a record that parses, fits and decodes contributes its file, followed by the files of the records from the end of its data |
| Sound.SampleNames | lastbeer_decrunch.cpp:148-155 | the files of the records from `s` on go to the sound folder, each named after its own record index |
| Sound.SoundFileNames | lastbeer_decrunch.cpp:146-155 | sample `j` of a sound item is written into the sound folder as `stem_jj.WAV`, or `stem.WAV` when it is the only sample |
| Sound.ReadSamples | lastbeer_decrunch.cpp:175-251 | ADPCM when `flags & 1`, decoded in a buffer; otherwise a copy; an empty ADPCM payload fails |
| Sound.SampleAtStep | lastbeer_decrunch.cpp:158-252 | a record that parses, fits and decodes yields its WAV file at rate `1000·code`, and the next record starts at `at + 10 + size` |
| Sound.RecordAdvances | lastbeer_decrunch.cpp:146-252 | each record takes `10 + size` bytes: the sample list is its file followed by the files of the records from `at + 10 + size` |
| Sound.DecodeSample | lastbeer_decrunch.cpp:148-272 | one pass of the sample loop yields that record's named WAV file and the next offset, or the error |
| Sound.DecodeSnd | lastbeer_decrunch.cpp:130-274 | the sample loop writes the files of all records in order, or stops at the first failing record |
| Sound.SinglePcmSample | lastbeer_decrunch.cpp:125-272 | `x.SND` holding one PCM record yields one file `x.WAV` with the record's bytes at the record's rate |
| Archive.TypeIdField | lastbeer_decrunch.cpp:65-66 | the 28-character buffer after the read |
| Archive.TypeIdCheck | lastbeer_decrunch.cpp:64-72 | the archive is accepted iff its first 28 bytes are exactly the type identifier; shorter files are refused |
| Archive.ReadTypeId | lastbeer_decrunch.cpp:65-67 | the check on the stream agrees with that, and on success the cursor is at 28 |
| Archive.ParseHeader | lastbeer_decrunch.cpp:77-81 | the header is there iff the file has at least 34 bytes |
| Archive.ReadHeader | lastbeer_decrunch.cpp:77-81 | three u16 reads give the header and leave the cursor at 34 |
| Archive.NulIndex | lastbeer_decrunch.cpp:97 | `strlen` is the index of the first NUL, or the length when there is none |
| Archive.NulIndexAt | lastbeer_decrunch.cpp:97 | that index is the only position before which there is no NUL and at which there is a NUL or the end |
| Archive.NameReadsBack | lastbeer_decrunch.cpp:95-97 | a name padded with NULs to 14 bytes is cut back to itself |
| Archive.ParseEntry | lastbeer_decrunch.cpp:95-106 | an entry parses iff its 24 bytes are there, and its name has no NUL and at most 14 characters |
| Archive.EntryReadsBack | lastbeer_decrunch.cpp:95-106 | a written entry reads back as itself, wherever it sits |
| Archive.ScanSpan | lastbeer_decrunch.cpp:92-106 | `n` entries all parse iff the file has at least `34 + 24n` bytes |
| Archive.ReadEntry | lastbeer_decrunch.cpp:95-106 | reading field by field gives the entry at the cursor and advances by 24 |
| Archive.Extract | lastbeer_decrunch.cpp:111-114 | an item is extracted iff `offset + size` lies within the file, and then it has `size` bytes |
| Archive.ExtractPlaced | lastbeer_decrunch.cpp:111-114 | the bytes stored at an entry's offset are exactly what is extracted |
| Archive.ExtractAt | lastbeer_decrunch.cpp:111-115 | the seek–read–seek returns the item's bytes and restores the cursor |
| Archive.ItemOutput | lastbeer_decrunch.cpp:117-127 | an item's first output file is the item itself, unchanged |
| Archive.PlainItem | lastbeer_decrunch.cpp:117-127 | an item that is not `.SND` yields only itself |
| Archive.SoundItem | lastbeer_decrunch.cpp:117-274 | a `.SND` item yields itself followed by its WAV files |
| Archive.ItemAt | lastbeer_decrunch.cpp:94-127 | an item that is processed has its entry in the directory and its bytes inside the file, and its first file is those bytes under the entry's name |
| Archive.ItemsFrom | lastbeer_decrunch.cpp:92-275 | when the items from `k` on are all processed, each yields at least one file and the whole directory lies inside the file |
| Archive.Decrunch | lastbeer_decrunch.cpp:64-275 | a wrong type identifier fails with `BadMagic` and a missing header with `TruncatedHeader`. A successful run has read the identifier, the header and the whole directory, and writes at least one file per item. |
| Archive.ItemBytes | lastbeer_decrunch.cpp:94-115 | item `k` exists iff its entry and its bytes are in the file. Its bytes are `src[offset..offset+size]`. A missing entry and an out-of-range item are told apart. |
| Archive.ReadItem | lastbeer_decrunch.cpp:94-115 | reading entry `k` and its bytes on the stream agrees with that, the cursor ending after the entry |
| Archive.DecrunchItem | lastbeer_decrunch.cpp:117-274 | the files written for one item: the item, then its samples when it is `.SND` |
| Archive.DecrunchEntry | lastbeer_decrunch.cpp:94-274 | one pass of the item loop writes item `k`'s files and ends after its entry |
| Archive.ItemsInOrder | lastbeer_decrunch.cpp:92-275 | items are processed in directory order, each item's files first |
| Archive.DecrunchItems | lastbeer_decrunch.cpp:92-275 | the item loop writes the files of all items in order, or stops at the first failure, and ends after the directory |
| Archive.DecrunchArchive | lastbeer_decrunch.cpp:64-275 | from the type check to the end of the loop: everything the decruncher writes, or the reason it stops |
| Archive.EmptyArchive | lastbeer_decrunch.cpp:64-92 | an archive with the identifier and item count 0 writes nothing |

## Left out

- Console output, the command line, opening the file, creating the output directories and writing files. The model returns the list of files to write instead.
- A run that aborts part-way. Its result is the error alone; the files the source has already written before the abort are not modelled.
- The exit code and the `WRITE_DATA` switch. The switch is taken as on.
- `string_format` in general. Only the `%02d` of the sample names is modelled (`Names.Pad2`).
- `std::tolower` in locales other than "C" (`CaseFold.ToLower`).
- Host byte order. The integer helpers are modelled as little-endian, which is what the archive and RIFF/WAVE use.
- Streams.InputStream.Read: a short read leaves the source's stream failed, with values left uninitialised and later reads failing. The model fails at once and keeps the cursor where it was.
- Streams.InputStream.ReadString: the source resizes to `(size_t)-1` for `len = 0`, which throws. The model returns `None`.
- Archive.ReadEntry: the source stores the u32 size and offset into `int`, and values of 2^31 or more then become negative and throw or fail. The model keeps them unsigned.
- Archive.ExtractAt: when `offset + size` runs past the end of the file, the model stops with `OutOfRange` at that item. The source's `seekg` to the offset succeeds even past the end, and the `read` at line 114 comes up short.
  - The source still writes the item, padded with zeros to `size` bytes (lines 111 and 121), and decodes it if it is `.SND`.
  - The short read at line 114 has already failed the stream, so `seekg(pos)` at line 115 is a no-op. The directory cursor is not restored, and the reads of the next entries fail.
  - With `size == 0` and an offset past the end, the source's 0-byte read succeeds and the run goes on normally. The model stops with `OutOfRange` there as well.
- Sound.ReadRecord: the source reads record fields and sample data through an unchecked pointer, past the end of a truncated item. The model stops with `TruncatedSample`.
- Sound.SamplePcm: an ADPCM record of size 0 makes the source throw from `vector::assign`. The model stops with `EmptyAdpcm`.
- Sound.SamplePcm: the source holds the data size in an `int` (line 168) and computes `1 + 2*(snd_size - 1)` in `int` (line 185). For an ADPCM record of more than 2^30 bytes that overflows and `assign` throws in practice. The model decodes such a record.
- Names.ExtensionStart: `std::filesystem::path` first splits a name at `/`, and on Windows also at `\` and at a drive prefix `X:`, before it takes `stem()` and `extension()`. The model treats the whole 14-byte entry name as one file name. A name such as `A/B.SND` gets the stem `A/B` here, where the source writes `B.WAV` into the sound folder.
- Sound.DecodeSnd: the source writes each WAV file as it goes. The model reports the first failing record and no files for that item.
- Wave.Field32: size fields are reduced modulo 2^32, as the conversion to `uint32_t` does. This matters only for 4 GiB of samples.
