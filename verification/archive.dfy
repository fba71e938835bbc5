/** The BEER.DAT archive (lastbeer_decrunch.cpp:64-127): a 28-byte type
    identifier, three u16 header fields of which the last is the item count,
    then one 24-byte directory entry per item (a NUL-padded 14-byte name, the
    u32 size, u16 flags and the u32 absolute offset of the item's bytes).
    Every item is written out as it is; `*.SND` items are also decoded into
    WAV files. */
module Archive {
  import opened LittleEndian
  import opened Errors
  import opened Streams
  import opened Wildcard
  import opened Names
  import opened Sound

  const TypeId: string := "ALPHA-HELIX COMBINER VER 3.3"
  const TypeIdSize: nat := 28

  /** The opaque u16 fields and the item count follow the type identifier;
      the directory starts after them. */
  const DirStart: nat := 34
  const NameSize: nat := 14
  const EntrySize: nat := 24

  /** The `type_id` buffer after the read: 28 NULs overwritten by the bytes
      that were there. */
  function TypeIdField(src: seq<Byte>): (f: string)
    ensures |f| == TypeIdSize
  {
    var got := Available(src, 0, TypeIdSize);
    Chars(got) + seq(TypeIdSize - |got|, _ => '\0')
  }

  predicate AcceptsTypeId(src: seq<Byte>)
  {
    TypeIdField(src) == TypeId
  }

  /** The archive is accepted exactly when its first 28 bytes spell the
      type identifier; a shorter file is always refused. */
  lemma TypeIdCheck(src: seq<Byte>)
    ensures AcceptsTypeId(src) <==> |src| >= TypeIdSize && Chars(src[..TypeIdSize]) == TypeId
  {
    var f := TypeIdField(src);
    if |src| < TypeIdSize {
      assert f[TypeIdSize - 1] == '\0' != TypeId[TypeIdSize - 1];
    } else {
      assert f == Chars(src[..TypeIdSize]) + [];
    }
  }

  /** `type_id.compare(TYPE_ID_STR) == 0` on a freshly opened stream. */
  method ReadTypeId(fr: InputStream) returns (ok: bool)
    requires fr.pos == 0
    modifies fr
    ensures ok == AcceptsTypeId(fr.data)
    ensures ok ==> fr.pos == TypeIdSize
  {
    var got := fr.ReadUpTo(TypeIdSize);
    var type_id := Chars(got) + seq(TypeIdSize - |got|, _ => '\0');
    ok := type_id == TypeId;
    if |got| < TypeIdSize {
      assert type_id[TypeIdSize - 1] == '\0' != TypeId[TypeIdSize - 1];
    }
  }

  /** The header after the type identifier. */
  datatype Header = Header(someHeadStuff: U16, someHeadStuff2: U16, itemsCount: U16)

  function ParseHeader(src: seq<Byte>): (r: Result<Header>)
    ensures r.Ok? <==> |src| >= DirStart
  {
    if |src| < DirStart then Err(TruncatedHeader)
    else Ok(Header(DecodeU16(src[28..30]), DecodeU16(src[30..32]), DecodeU16(src[32..34])))
  }

  /** The three `istream_read_u16` calls of lines 77-81. */
  method ReadHeader(fr: InputStream) returns (r: Result<Header>)
    requires fr.pos == TypeIdSize
    modifies fr
    ensures r == ParseHeader(fr.data)
    ensures r.Ok? ==> fr.pos == DirStart
  {
    var a := fr.ReadU16();
    if a.None? {
      return Err(TruncatedHeader);
    }
    var b := fr.ReadU16();
    if b.None? {
      return Err(TruncatedHeader);
    }
    var items_count := fr.ReadU16();
    if items_count.None? {
      return Err(TruncatedHeader);
    }
    return Ok(Header(a.value, b.value, items_count.value));
  }

  /** One directory entry. */
  datatype Entry = Entry(name: string, size: U32, flags: U16, offset: U32)

  /** `strlen`: the index of the first NUL, or the length when there is none. */
  function NulIndex(s: string): (n: nat)
    ensures n <= |s|
    ensures forall k :: 0 <= k < n ==> s[k] != '\0'
    ensures n < |s| ==> s[n] == '\0'
  {
    if s == [] || s[0] == '\0' then 0 else 1 + NulIndex(s[1..])
  }

  /** `resize(strlen(c_str()))`: the characters before the first NUL. */
  function UntilNul(s: string): string
  {
    s[..NulIndex(s)]
  }

  /** The entry whose 24 bytes start at `at`, if they are all there. */
  function ParseEntry(src: seq<Byte>, at: nat): (r: Option<Entry>)
    ensures r.Some? <==> at + EntrySize <= |src|
    ensures r.Some? ==> CString(r.value.name) && |r.value.name| <= NameSize
  {
    if at + EntrySize > |src| then None
    else Some(Entry(UntilNul(Chars(src[at..at + NameSize])), DecodeU32(src[at + 14..at + 18]),
                    DecodeU16(src[at + 18..at + 20]), DecodeU32(src[at + 20..at + 24])))
  }

  /** Entry `k` of the directory. */
  function EntryAt(src: seq<Byte>, k: nat): Option<Entry>
  {
    ParseEntry(src, DirStart + EntrySize * k)
  }

  /** A name the 14-byte field can hold: Latin-1, no NUL, at most 14. */
  predicate StorableName(name: string)
  {
    |name| <= NameSize && CString(name) && forall k :: 0 <= k < |name| ==> name[k] as int < 0x100
  }

  /** The 24 bytes of an entry as the archiver wrote it. */
  function EncodeEntry(e: Entry): (bs: seq<Byte>)
    requires StorableName(e.name)
    ensures |bs| == EntrySize
  {
    (Latin1(e.name) + seq(NameSize - |e.name|, _ => 0))
      + (EncodeU32(e.size) + (EncodeU16(e.flags) + EncodeU32(e.offset)))
  }

  /** `strlen` stops at the first NUL: a string whose first `n`
      characters are not NUL, followed by a NUL or by its end, has length
      `n` as a C string. */
  lemma NulIndexAt(s: string, n: nat)
    requires n <= |s| && forall k :: 0 <= k < n ==> s[k] != '\0'
    requires n < |s| ==> s[n] == '\0'
    ensures NulIndex(s) == n
  {
  }

  /** A stored name, padded with NULs to 14 bytes, reads back as itself. */
  lemma NameReadsBack(name: string)
    requires StorableName(name)
    ensures UntilNul(Chars(Latin1(name) + seq(NameSize - |name|, _ => 0))) == name
  {
    var field := Chars(Latin1(name) + seq(NameSize - |name|, _ => 0));
    assert forall k :: 0 <= k < |name| ==> field[k] == name[k];
    NulIndexAt(field, |name|);
    assert field[..|name|] == name;
  }

  /** A directory entry reads back as written, wherever it sits. */
  lemma EntryReadsBack(pre: seq<Byte>, e: Entry, post: seq<Byte>)
    requires StorableName(e.name)
    ensures ParseEntry(pre + EncodeEntry(e) + post, |pre|) == Some(e)
  {
    var src := pre + EncodeEntry(e) + post;
    var at := |pre|;
    var bs := EncodeEntry(e);
    Between(pre, bs, post);
    assert src[at..at + NameSize] == bs[..NameSize] == Latin1(e.name) + seq(NameSize - |e.name|, _ => 0);
    assert src[at + 14..at + 18] == bs[14..18] == EncodeU32(e.size);
    assert src[at + 18..at + 20] == bs[18..20] == EncodeU16(e.flags);
    assert src[at + 20..at + 24] == bs[20..24] == EncodeU32(e.offset);
    NameReadsBack(e.name);
    U32RoundTrip(e.size);
    U16RoundTrip(e.flags);
    U32RoundTrip(e.offset);
  }

  /** Scanning `n` entries needs exactly `34 + 24 * n` bytes: they all
      parse precisely when the file holds that many. */
  lemma ScanSpan(src: seq<Byte>, n: nat)
    requires n >= 1
    ensures (forall k :: 0 <= k < n ==> EntryAt(src, k).Some?) <==> |src| >= DirStart + EntrySize * n
  {
    if |src| >= DirStart + EntrySize * n {
      forall k | 0 <= k < n
        ensures EntryAt(src, k).Some?
      {
        assert EntrySize * k + EntrySize <= EntrySize * n;
      }
    }
    assert EntryAt(src, n - 1).Some? ==> DirStart + EntrySize * (n - 1) + EntrySize <= |src|;
  }

  /** The 24 bytes of one entry, read field by field (lines 95-106). */
  method ReadEntry(fr: InputStream) returns (r: Option<Entry>)
    modifies fr
    ensures r == ParseEntry(fr.data, old(fr.pos))
    ensures r.Some? ==> fr.pos == old(fr.pos) + EntrySize
  {
    var raw := fr.Read(NameSize);
    if raw.None? {
      return None;
    }
    var file_name := UntilNul(Chars(raw.value));
    var file_size := fr.ReadU32();
    if file_size.None? {
      return None;
    }
    var file_flags := fr.ReadU16();
    if file_flags.None? {
      return None;
    }
    var file_pos := fr.ReadU32();
    if file_pos.None? {
      return None;
    }
    return Some(Entry(file_name, file_size.value, file_flags.value, file_pos.value));
  }

  /** The bytes of an item: `size` bytes at `offset`, which must lie
      within the file. */
  function Extract(src: seq<Byte>, e: Entry): (r: Result<seq<Byte>>)
    ensures r.Ok? <==> e.offset + e.size <= |src|
    ensures r.Ok? ==> |r.value| == e.size
  {
    match Slice(src, e.offset, e.size)
    case None => Err(OutOfRange)
    case Some(bs) => Ok(bs)
  }

  /** An item stored at `offset` is extracted exactly, whatever surrounds
      it and wherever its entry sits in the directory. */
  lemma ExtractPlaced(pre: seq<Byte>, bs: seq<Byte>, post: seq<Byte>, e: Entry)
    requires e.offset == |pre| && e.size == |bs|
    ensures Extract(pre + bs + post, e) == Ok(bs)
  {
    SliceReadsBack(pre, bs, post);
  }

  /** `tellg`, `seekg(file_pos)`, `read`, `seekg(pos)` (lines 111-115):
      the item's bytes, with the directory cursor back where it was. */
  method ExtractAt(fr: InputStream, e: Entry) returns (r: Result<seq<Byte>>)
    modifies fr
    ensures r == Extract(fr.data, e)
    ensures fr.pos == old(fr.pos)
  {
    var pos := fr.Tell();
    fr.Seek(e.offset);
    var data := fr.Read(e.size);
    fr.Seek(pos);
    if data.None? {
      return Err(OutOfRange);
    }
    return Ok(data.value);
  }

  /** The files written for an item: the item itself, then its samples
      when its extension is ".SND". */
  function ItemOutput(name: string, data: seq<Byte>): (r: Result<seq<OutFile>>)
    ensures r.Ok? ==> |r.value| >= 1 && r.value[0] == OutFile(Items, name, data)
  {
    Prepend([OutFile(Items, name, data)],
            if Extension(name) == ".SND" then SoundFiles(name, data) else Ok([]))
  }

  /** An item that is not a sound file is written out once, unchanged. */
  lemma PlainItem(name: string, data: seq<Byte>)
    requires Extension(name) != ".SND"
    ensures ItemOutput(name, data) == Ok([OutFile(Items, name, data)])
  {
    assert [OutFile(Items, name, data)] + [] == [OutFile(Items, name, data)];
  }

  /** A sound item is written out, followed by its WAV files. */
  lemma SoundItem(name: string, data: seq<Byte>, wavs: seq<OutFile>)
    requires Extension(name) == ".SND" && SoundFiles(name, data) == Ok(wavs)
    ensures ItemOutput(name, data) == Ok([OutFile(Items, name, data)] + wavs)
  {
  }

  /** Item `k`: its directory entry and the bytes it names. It exists
      exactly when the entry is in the archive and its bytes lie inside it,
      and then the bytes are those at the entry's offset. */
  function ItemBytes(src: seq<Byte>, k: nat): (r: Result<(Entry, seq<Byte>)>)
    ensures r.Ok? <==> EntryAt(src, k).Some? && EntryAt(src, k).value.offset + EntryAt(src, k).value.size <= |src|
    ensures r.Ok? ==> var e := r.value.0; EntryAt(src, k) == Some(e) && r.value.1 == src[e.offset..e.offset + e.size]
    ensures EntryAt(src, k).None? ==> r == Err(TruncatedDirectory)
    ensures EntryAt(src, k).Some? && r.Err? ==> r == Err(OutOfRange)
  {
    match EntryAt(src, k)
    case None => Err(TruncatedDirectory)
    case Some(e) =>
      match Extract(src, e)
      case Err(x) => Err(x)
      case Ok(data) => Ok((e, data))
  }

  /** The files written for item `k`: its directory entry must be there
      and its bytes inside the archive. */
  function ItemAt(src: seq<Byte>, k: nat): (r: Result<seq<OutFile>>)
    ensures r.Ok? ==> && EntryAt(src, k).Some?
                      && var e := EntryAt(src, k).value;
                      && e.offset + e.size <= |src|
                      && |r.value| >= 1 && r.value[0] == OutFile(Items, e.name, src[e.offset..e.offset + e.size])
  {
    match ItemBytes(src, k)
    case Err(x) => Err(x)
    case Ok((e, data)) => ItemOutput(e.name, data)
  }

  /** The files written for items `k..count - 1`, stopping at the first
      item that fails. */
  function ItemsFrom(src: seq<Byte>, k: nat, count: nat): (r: Result<seq<OutFile>>)
    ensures r.Ok? && k < count ==> |r.value| >= count - k && |src| >= DirStart + EntrySize * count
    decreases count - k
  {
    if k >= count then Ok([])
    else match ItemAt(src, k)
      case Err(x) => Err(x)
      case Ok(fs) => Prepend(fs, ItemsFrom(src, k + 1, count))
  }

  /** Everything the decruncher writes for the archive `src`. */
  function Decrunch(src: seq<Byte>): (r: Result<seq<OutFile>>)
    ensures !AcceptsTypeId(src) ==> r == Err(BadMagic)
    ensures AcceptsTypeId(src) && |src| < DirStart ==> r == Err(TruncatedHeader)
    ensures r.Ok? ==> && AcceptsTypeId(src) && ParseHeader(src).Ok?
                      && var count := ParseHeader(src).value.itemsCount;
                      && |r.value| >= count
                      && (count == 0 || |src| >= DirStart + EntrySize * count)
  {
    if !AcceptsTypeId(src) then Err(BadMagic)
    else match ParseHeader(src)
      case Err(x) => Err(x)
      case Ok(h) => ItemsFrom(src, 0, h.itemsCount)
  }

  /** Items are processed in directory order: when item `k` succeeds, its
      files come first, then those of the items after it. */
  lemma ItemsInOrder(src: seq<Byte>, k: nat, count: nat, fs: seq<OutFile>)
    requires k < count && ItemAt(src, k) == Ok(fs)
    ensures ItemsFrom(src, k, count) == Prepend(fs, ItemsFrom(src, k + 1, count))
    ensures ItemsFrom(src, k, count).Ok? <==> ItemsFrom(src, k + 1, count).Ok?
  {
  }

  /** The files written for one item: `DecodeSnd` for a sound file. */
  method DecrunchItem(name: string, data: seq<Byte>) returns (r: Result<seq<OutFile>>)
    requires CString(name)
    ensures r == ItemOutput(name, data)
  {
    var item := OutFile(Items, name, data);
    if Extension(name) != ".SND" {
      assert [item] + [] == [item];
      return Ok([item]);
    }
    var sounds := DecodeSnd(name, data);
    if sounds.Err? {
      return Err(sounds.error);
    }
    return Ok([item] + sounds.value);
  }

  /** Reading item `k` (lines 94-115): its directory entry, then its
      bytes, with the stream back after the entry. */
  method ReadItem(fr: InputStream, ghost k: nat) returns (r: Result<(Entry, seq<Byte>)>)
    requires fr.pos == DirStart + EntrySize * k
    modifies fr
    ensures r == ItemBytes(fr.data, k)
    ensures r.Ok? ==> fr.pos == old(fr.pos) + EntrySize
  {
    var entry := ReadEntry(fr);
    if entry.None? {
      return Err(TruncatedDirectory);
    }
    var e := entry.value;
    var data := ExtractAt(fr, e);
    if data.Err? {
      return Err(data.error);
    }
    return Ok((e, data.value));
  }

  /** One pass of the item loop (lines 94-123): read item `k`, write its
      files. */
  method DecrunchEntry(fr: InputStream, ghost k: nat) returns (r: Result<seq<OutFile>>)
    requires fr.pos == DirStart + EntrySize * k
    modifies fr
    ensures r == ItemAt(fr.data, k)
    ensures r.Ok? ==> fr.pos == old(fr.pos) + EntrySize
  {
    var item := ReadItem(fr, k);
    if item.Err? {
      return Err(item.error);
    }
    var (e, data) := item.value;
    r := DecrunchItem(e.name, data);
  }

  /** The item loop of lines 92-123 over `count` directory entries: it
      ends right after the directory when it succeeds. */
  method DecrunchItems(fr: InputStream, count: nat) returns (r: Result<seq<OutFile>>)
    requires fr.pos == DirStart
    modifies fr
    ensures r == ItemsFrom(fr.data, 0, count)
    ensures r.Ok? ==> fr.pos == DirStart + EntrySize * count
  {
    var files: seq<OutFile> := [];
    PrependNothing(ItemsFrom(fr.data, 0, count));
    for k := 0 to count
      invariant fr.pos == DirStart + EntrySize * k
      invariant ItemsFrom(fr.data, 0, count) == Prepend(files, ItemsFrom(fr.data, k, count))
    {
      var written := DecrunchEntry(fr, k);
      if written.Err? {
        return Err(written.error);
      }
      ItemsInOrder(fr.data, k, count, written.value);
      PrependTwice(files, written.value, ItemsFrom(fr.data, k + 1, count));
      files := files + written.value;
    }
    assert files + [] == files;
    return Ok(files);
  }

  /** `main` from the type check to the end of the item loop, on an opened
      stream: it ends after the directory when it succeeds. */
  method DecrunchArchive(fr: InputStream) returns (r: Result<seq<OutFile>>)
    requires fr.pos == 0
    modifies fr
    ensures r == Decrunch(fr.data)
    ensures r.Ok? ==> fr.pos == DirStart + EntrySize * ParseHeader(fr.data).value.itemsCount
  {
    var ok := ReadTypeId(fr);
    if !ok {
      return Err(BadMagic);
    }
    var header := ReadHeader(fr);
    if header.Err? {
      return Err(header.error);
    }
    r := DecrunchItems(fr, header.value.itemsCount);
  }

  /** An archive with no items decodes to no files. */
  lemma EmptyArchive(stuff: seq<Byte>)
    requires |stuff| == 4
    ensures Decrunch(Latin1(TypeId) + stuff + [0, 0]) == Ok([])
  {
    var src := Latin1(TypeId) + stuff + [0, 0];
    assert src[..TypeIdSize] == Latin1(TypeId);
    TypeIdCheck(src);
    assert src[32..34] == [0, 0];
  }
}
