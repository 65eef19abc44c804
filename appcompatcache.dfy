/**
 * The Windows Application Compatibility Cache (AppCompatCache registry
 * value): a little-endian buffer whose first u32 selects one of several
 * format versions, followed by a header and a run of fixed-layout cached
 * entries whose path and data fields point back into the whole buffer.
 */
module AppCompatCache {
  import opened Common
  import Timelib

  const FORMAT_TYPE_2000: int := 1
  const FORMAT_TYPE_XP: int := 2
  const FORMAT_TYPE_2003: int := 3
  const FORMAT_TYPE_VISTA: int := 4
  const FORMAT_TYPE_7: int := 5
  const FORMAT_TYPE_8: int := 6

  const HEADER_SIGNATURE_XP: int := 0xdeadbeef
  const HEADER_SIGNATURE_2003: int := 0xbadc0ffe
  const HEADER_SIGNATURE_7: int := 0xbadc0fee
  const HEADER_SIGNATURE_8: int := 0x00000080

  /** Cached entry signatures of Windows 8.0 ("00ts") and 8.1 ("10ts"). */
  const CACHED_ENTRY_SIGNATURE_8_0: seq<byte> := [0x30, 0x30, 0x74, 0x73]
  const CACHED_ENTRY_SIGNATURE_8_1: seq<byte> := [0x31, 0x30, 0x74, 0x73]

  /** Structure sizes as declared by the construct layouts. */
  const HEADER_XP_SIZE: nat := 16 + 384
  const HEADER_2003_SIZE: nat := 8
  const HEADER_7_SIZE: nat := 8 + 120
  const HEADER_8_SIZE: nat := 4 + 124
  const CACHED_ENTRY_XP_SIZE: nat := 528 + 24
  const CACHED_ENTRY_HEADER_8_SIZE: nat := 14
  const XP_PATH_AREA: nat := 528

  predicate SupportedFormat(f: int)
  {
    f == FORMAT_TYPE_XP || f == FORMAT_TYPE_2003 || f == FORMAT_TYPE_VISTA ||
    f == FORMAT_TYPE_7 || f == FORMAT_TYPE_8
  }

  /** The formats whose entries are fixed structures with path and data offsets. */
  predicate FieldsFormat(f: int)
  {
    f == FORMAT_TYPE_2003 || f == FORMAT_TYPE_VISTA || f == FORMAT_TYPE_7
  }

  predicate IsEntrySignature8(s: seq<byte>)
  {
    s == CACHED_ENTRY_SIGNATURE_8_0 || s == CACHED_ENTRY_SIGNATURE_8_1
  }

  // ---------------------------------------------------------------------
  // Signature and header

  /**
   * The format type selected by the first little-endian u32, None for an
   * unknown signature, FieldError when not even four bytes are there.
   */
  function CheckSignature(data: seq<byte>): (r: Result<Option<int>>)
    ensures |data| < 4 <==> r == Err(FieldError)
    ensures r.Ok? ==> var sig := LEAt(data, 0, 4);
      && (sig == HEADER_SIGNATURE_XP <==> r.value == Some(FORMAT_TYPE_XP))
      && (sig == HEADER_SIGNATURE_2003 <==> r.value == Some(FORMAT_TYPE_2003))
      && (sig == HEADER_SIGNATURE_7 <==> r.value == Some(FORMAT_TYPE_7))
      && (r.value == Some(FORMAT_TYPE_8) <==>
            sig == HEADER_SIGNATURE_8 && IsEntrySignature8(PySlice(data, 128, 132)))
      && (r.value.Some? ==> r.value.value in {FORMAT_TYPE_XP, FORMAT_TYPE_2003, FORMAT_TYPE_7, FORMAT_TYPE_8})
  {
    match ReadLE(data, 0, 4)
    case None => Err(FieldError)
    case Some(sig) =>
      if sig == HEADER_SIGNATURE_XP then Ok(Some(FORMAT_TYPE_XP))
      else if sig == HEADER_SIGNATURE_2003 then Ok(Some(FORMAT_TYPE_2003))
      else if sig == HEADER_SIGNATURE_7 then Ok(Some(FORMAT_TYPE_7))
      else if sig == HEADER_SIGNATURE_8 && IsEntrySignature8(PySlice(data, sig, sig + 4)) then
        Ok(Some(FORMAT_TYPE_8))
      else Ok(None)
  }

  datatype Header = Header(headerSize: nat, numberOfCachedEntries: nat)

  /** The header size each format declares (Vista has no header structure). */
  function HeaderSize(f: int): nat
  {
    if f == FORMAT_TYPE_XP then HEADER_XP_SIZE
    else if f == FORMAT_TYPE_2003 then HEADER_2003_SIZE
    else if f == FORMAT_TYPE_7 then HEADER_7_SIZE
    else if f == FORMAT_TYPE_8 then HEADER_8_SIZE
    else 0
  }

  /**
   * ParseHeader: RuntimeError for an unsupported format, AttributeError for
   * Vista (its header structure is not defined), FieldError when the buffer
   * is shorter than the header; the entry count is read for XP, 2003 and 7
   * only.
   */
  function ParseHeader(f: int, data: seq<byte>): (r: Result<Header>)
    ensures !SupportedFormat(f) ==> r == Err(RuntimeError)
    ensures f == FORMAT_TYPE_VISTA ==> r == Err(AttributeError)
    ensures SupportedFormat(f) && f != FORMAT_TYPE_VISTA ==>
      (r.Ok? <==> |data| >= HeaderSize(f)) && (r.Err? ==> r.exc == FieldError)
    ensures r.Ok? ==> r.value.headerSize == HeaderSize(f) && r.value.headerSize in {400, 8, 128}
    ensures r.Ok? && f == FORMAT_TYPE_8 ==> r.value.numberOfCachedEntries == 0
    ensures r.Ok? && f != FORMAT_TYPE_8 ==> r.value.numberOfCachedEntries == LEAt(data, 4, 4)
  {
    if !SupportedFormat(f) then Err(RuntimeError)
    else if f == FORMAT_TYPE_VISTA then Err(AttributeError)
    else if |data| < HeaderSize(f) then Err(FieldError)
    else if f == FORMAT_TYPE_8 then Ok(Header(HEADER_8_SIZE, 0))
    else Ok(Header(HeaderSize(f), LEAt(data, 4, 4)))
  }

  // ---------------------------------------------------------------------
  // Cached entry layouts

  /** Size of the 2003, Vista or 7 cached entry in its 32-bit or 64-bit layout. */
  function EntrySize(f: int, wide: bool): nat
  {
    if f == FORMAT_TYPE_2003 then (if wide then 32 else 24)
    else if f == FORMAT_TYPE_VISTA then (if wide then 32 else 24)
    else if wide then 48 else 32
  }

  /**
   * DetermineCacheEntrySize: the entry size used for the whole buffer.  For
   * 2003, Vista and 7 it is read off the first entry: None when the path
   * sizes are out of bounds, and the 64-bit layout when the 32-bit path
   * offset is 0 and the u32 at bytes 8..11 is not.
   */
  function DetermineCacheEntrySize(f: int, data: seq<byte>, offset: nat): (r: Result<Option<nat>>)
    ensures !SupportedFormat(f) ==> r == Err(RuntimeError)
    ensures f == FORMAT_TYPE_XP ==> r == Ok(Some(CACHED_ENTRY_XP_SIZE))
    ensures f == FORMAT_TYPE_8 ==> r == Ok(Some(CACHED_ENTRY_HEADER_8_SIZE))
    ensures FieldsFormat(f) ==>
      var e := PySlice(data, offset, |data|);
      if |e| < 12 then r == Err(FieldError)
      else
        var pathSize := LEAt(e, 0, 2);
        var maximumPathSize := LEAt(e, 2, 2);
        var wide := LEAt(e, 4, 4) == 0 && LEAt(e, 8, 4) != 0;
        (r == Ok(None) <==>
           maximumPathSize < pathSize || pathSize == 0 || maximumPathSize - pathSize != 2)
        && (r != Ok(None) ==> r == Ok(Some(EntrySize(f, wide))))
  {
    if !SupportedFormat(f) then Err(RuntimeError)
    else if f == FORMAT_TYPE_XP then Ok(Some(CACHED_ENTRY_XP_SIZE))
    else if f == FORMAT_TYPE_8 then Ok(Some(CACHED_ENTRY_HEADER_8_SIZE))
    else
      var e := PySlice(data, offset, |data|);
      if |e| < 12 then Err(FieldError)
      else
        var pathSize := LEAt(e, 0, 2);
        var maximumPathSize := LEAt(e, 2, 2);
        var pathOffset32 := LEAt(e, 4, 4);
        var pathOffset64 := LEAt(e, 8, 4);
        if maximumPathSize < pathSize then Ok(None)
        else if pathSize == 0 || maximumPathSize - pathSize != 2 then Ok(None)
        else Ok(Some(EntrySize(f, pathOffset32 == 0 && pathOffset64 != 0)))
  }

  /** A decoded cached entry; paths stay UTF-16 byte strings. */
  datatype CachedEntry = CachedEntry(
    cachedEntrySize: nat,
    path: Option<seq<byte>>,
    lastModificationTime: Option<nat>,
    fileSize: Option<nat>,
    insertionFlags: Option<nat>,
    shimFlags: Option<nat>,
    lastUpdateTime: Option<nat>,
    data: Option<seq<byte>>)

  /** The fields of a 2003, Vista or 7 entry structure. */
  datatype EntryFields = EntryFields(
    pathSize: nat, pathOffset: nat, lastModificationTime: nat,
    fileSize: Option<nat>, insertionFlags: Option<nat>, shimFlags: Option<nat>,
    dataSize: nat, dataOffset: nat)


  /**
   * A 2003, Vista or 7 entry structure over c.  Both layouts share the path
   * sizes; the 64-bit ones widen the path offset (and in 7 the data fields)
   * to 8 bytes and shift what follows.
   */
  function ReadEntryFields(f: int, wide: bool, c: seq<byte>): (r: EntryFields)
    requires FieldsFormat(f)
    requires |c| >= EntrySize(f, wide)
    ensures r.pathSize == LEAt(c, 0, 2)
    ensures (f == FORMAT_TYPE_2003) == r.fileSize.Some?
    ensures (f != FORMAT_TYPE_2003) == r.insertionFlags.Some?
    ensures f != FORMAT_TYPE_7 ==> r.dataSize == 0
  {
    var w := if wide then 8 else 4;
    var t := if wide then 24 else 16;
    EntryFields(
      LEAt(c, 0, 2), LEAt(c, 4 + w - 4, w), LEAt(c, t - 8, 8),
      if f == FORMAT_TYPE_2003 then Some(LEAt(c, t, 8)) else None,
      if f != FORMAT_TYPE_2003 then Some(LEAt(c, t, 4)) else None,
      if f != FORMAT_TYPE_2003 then Some(LEAt(c, t + 4, 4)) else None,
      if f == FORMAT_TYPE_7 then LEAt(c, t + 8, w) else 0,
      if f == FORMAT_TYPE_7 then LEAt(c, t + 8 + w, w) else 0)
  }

  /** A UTF-16 NUL (two zero bytes) at position k. */
  predicate TerminatorAt(c: seq<byte>, k: int)
  {
    0 <= k && k + 1 < |c| && c[k] == 0 && c[k + 1] == 0
  }

  /**
   * Length in bytes of the XP path: the offset of the first 00 00 pair at
   * an even position within the 528-byte path area, or 528 without one.
   */
  function XpPathSize(c: seq<byte>, i: nat): (r: nat)
    requires |c| >= XP_PATH_AREA && i % 2 == 0 && i <= XP_PATH_AREA
    ensures i <= r <= XP_PATH_AREA && r % 2 == 0
    ensures r < XP_PATH_AREA ==> TerminatorAt(c, r)
    ensures forall k :: i <= k < r && k % 2 == 0 ==> !TerminatorAt(c, k)
    decreases XP_PATH_AREA - i
  {
    if i >= XP_PATH_AREA then XP_PATH_AREA
    else if TerminatorAt(c, i) then i
    else XpPathSize(c, i + 2)
  }

  /** The terminator scan as the source writes it, a loop updating string_size. */
  method ScanXpPath(c: seq<byte>) returns (stringSize: nat)
    requires |c| >= XP_PATH_AREA
    ensures stringSize == XpPathSize(c, 0)
  {
    stringSize := 0;
    var stringIndex := 0;
    while stringIndex < XP_PATH_AREA
      invariant stringIndex == stringSize && stringIndex % 2 == 0 && stringIndex <= XP_PATH_AREA
      invariant XpPathSize(c, 0) == XpPathSize(c, stringIndex)
      decreases XP_PATH_AREA - stringIndex
    {
      if c[stringIndex] == 0 && c[stringIndex + 1] == 0 {
        assert TerminatorAt(c, stringIndex);
        break;
      }
      stringSize := stringSize + 2;
      stringIndex := stringIndex + 2;
    }
  }

  /** value_data[offset:offset+size] when size > 0: fields resolved against the whole buffer. */
  function WholeBufferSlice(data: seq<byte>, offset: nat, size: nat): Option<seq<byte>>
  {
    if size > 0 then Some(PySlice(data, offset, offset + size)) else None
  }

  function ParseEntryXp(data: seq<byte>, c: seq<byte>, size: nat): (r: Result<CachedEntry>)
    ensures r.Ok? ==> size == CACHED_ENTRY_XP_SIZE && |c| >= size && r.value.cachedEntrySize == size
    ensures r.Ok? ==> r.value.lastModificationTime.Some? && r.value.lastUpdateTime.Some?
    ensures size != CACHED_ENTRY_XP_SIZE ==> r == Err(RuntimeError)
  {
    if size != CACHED_ENTRY_XP_SIZE then Err(RuntimeError)
    else if |c| < CACHED_ENTRY_XP_SIZE then Err(FieldError)
    else
      Ok(CachedEntry(size, Some(c[..XpPathSize(c, 0)]), Some(LEAt(c, 528, 8)), Some(LEAt(c, 536, 8)),
                     None, None, Some(LEAt(c, 544, 8)), None))
  }

  function ParseEntryFields(f: int, data: seq<byte>, c: seq<byte>, size: nat): (r: Result<CachedEntry>)
    requires FieldsFormat(f)
    ensures r.Ok? ==> |c| >= size && r.value.cachedEntrySize == size && size >= 24
    ensures r.Ok? ==> r.value.lastModificationTime.Some? && r.value.lastUpdateTime.None?
    ensures size != EntrySize(f, false) && size != EntrySize(f, true) ==> r == Err(RuntimeError)
  {
    if size != EntrySize(f, false) && size != EntrySize(f, true) then Err(RuntimeError)
    else if |c| < size then Err(FieldError)
    else
      var fields := ReadEntryFields(f, size == EntrySize(f, true), c);
      var path := if fields.pathOffset > 0 && fields.pathSize > 0
                  then Some(PySlice(data, fields.pathOffset, fields.pathOffset + fields.pathSize))
                  else None;
      Ok(CachedEntry(size, path, Some(fields.lastModificationTime), fields.fileSize,
                     fields.insertionFlags, fields.shimFlags, None,
                     WholeBufferSlice(data, fields.dataOffset, fields.dataSize)))
  }

  /**
   * A Windows 8 entry: signature, unknown u32, data size, path size, the
   * path, two flag words, then (after 8 bytes for 8.0, 10 for 8.1) the
   * modification time and the data size again.
   */
  function ParseEntry8(data: seq<byte>, offset: nat, c: seq<byte>, size: nat): (r: Result<CachedEntry>)
    ensures r.Ok? ==> |c| >= 14 && size == 14 && r.value.cachedEntrySize == 12 + LEAt(c, 8, 4)
    ensures r.Ok? ==> r.value.lastModificationTime.Some? && r.value.lastUpdateTime.None?
    ensures !IsEntrySignature8(PySlice(c, 0, 4)) || size != CACHED_ENTRY_HEADER_8_SIZE ==> r == Err(RuntimeError)
  {
    var signature := PySlice(c, 0, 4);
    if !IsEntrySignature8(signature) then Err(RuntimeError)
    else if size != CACHED_ENTRY_HEADER_8_SIZE then Err(RuntimeError)
    else if |c| < CACHED_ENTRY_HEADER_8_SIZE then Err(FieldError)
    else
      var entrySize := 12 + LEAt(c, 8, 4);
      var pathSize := LEAt(c, 12, 2);
      var c2 := PySlice(data, offset, offset + entrySize);
      var dataOffset1 := 14 + pathSize;
      var remaining := PySlice(c2, dataOffset1, |c2|);
      if |remaining| < 8 then Err(FieldError)
      else
        var dataOffset2 := dataOffset1 + (if signature == CACHED_ENTRY_SIGNATURE_8_0 then 8 else 10);
        var remaining2 := PySlice(c2, dataOffset2, |c2|);
        if |remaining2| < 12 then Err(FieldError)
        else
          Ok(CachedEntry(entrySize, Some(PySlice(c2, 14, dataOffset1)), Some(LEAt(remaining2, 0, 8)),
                         None, Some(LEAt(remaining, 0, 4)), Some(LEAt(remaining, 4, 4)), None,
                         WholeBufferSlice(data, offset + dataOffset2 + 12, LEAt(remaining2, 8, 4))))
  }

  /**
   * ParseCachedEntry: RuntimeError when the size matches none of the
   * format's layouts or a Windows 8 entry has neither signature; FieldError
   * when the buffer ends inside the structure.
   */
  function ParseCachedEntry(f: int, data: seq<byte>, offset: nat, size: nat): (r: Result<CachedEntry>)
    ensures r.Ok? ==> r.value.cachedEntrySize >= 12
  {
    if !SupportedFormat(f) then Err(RuntimeError)
    else
      var c := PySlice(data, offset, offset + size);
      if f == FORMAT_TYPE_XP then ParseEntryXp(data, c, size)
      else if f == FORMAT_TYPE_8 then ParseEntry8(data, offset, c, size)
      else ParseEntryFields(f, data, c, size)
  }

  /** The RuntimeError cases of ParseCachedEntry. */
  lemma ParseCachedEntryRejects(f: int, data: seq<byte>, offset: nat, size: nat)
    ensures !SupportedFormat(f) ==> ParseCachedEntry(f, data, offset, size) == Err(RuntimeError)
    ensures f == FORMAT_TYPE_XP && size != CACHED_ENTRY_XP_SIZE ==>
            ParseCachedEntry(f, data, offset, size) == Err(RuntimeError)
    ensures FieldsFormat(f) && size != EntrySize(f, false) && size != EntrySize(f, true) ==>
            ParseCachedEntry(f, data, offset, size) == Err(RuntimeError)
    ensures f == FORMAT_TYPE_8 && !IsEntrySignature8(PySlice(PySlice(data, offset, offset + size), 0, 4)) ==>
            ParseCachedEntry(f, data, offset, size) == Err(RuntimeError)
    ensures f == FORMAT_TYPE_8 && size != CACHED_ENTRY_HEADER_8_SIZE ==>
            ParseCachedEntry(f, data, offset, size) == Err(RuntimeError)
  {
  }

  /**
   * A parsed entry lay within the buffer; the cursor advances by the given
   * size, or for Windows 8 by the entry's own data size plus 12; only XP has
   * an update time.
   */
  lemma ParseCachedEntryAdvance(f: int, data: seq<byte>, offset: nat, size: nat)
    requires ParseCachedEntry(f, data, offset, size).Ok?
    ensures var e := ParseCachedEntry(f, data, offset, size).value;
      && e.lastModificationTime.Some?
      && (e.lastUpdateTime.Some? <==> f == FORMAT_TYPE_XP)
      && (f == FORMAT_TYPE_8 ==> offset + 14 <= |data| && e.cachedEntrySize == 12 + LEAt(data, offset + 8, 4))
      && (f != FORMAT_TYPE_8 ==> offset + size <= |data| && e.cachedEntrySize == size)
  {
    SliceWithin(data, offset, size);
    if f == FORMAT_TYPE_8 {
      LEAtSlice(data, offset, offset + size, 8, 4);
    }
  }

  /** A slice that came out at full length lay within the buffer. */
  lemma SliceWithin(data: seq<byte>, offset: nat, size: nat)
    requires size > 0 && |PySlice(data, offset, offset + size)| >= size
    ensures offset + size <= |data|
    ensures PySlice(data, offset, offset + size) == data[offset..offset + size]
  {
  }

  /** For 2003, Vista and 7, the path is resolved against the whole buffer, only when offset and size are positive. */
  lemma PathFromWholeBuffer(f: int, data: seq<byte>, offset: nat, size: nat)
    requires FieldsFormat(f)
    requires size == EntrySize(f, false) || size == EntrySize(f, true)
    requires offset + size <= |data|
    ensures var c := data[offset..offset + size];
      var fields := ReadEntryFields(f, size == EntrySize(f, true), c);
      && ParseCachedEntry(f, data, offset, size).Ok?
      && ParseCachedEntry(f, data, offset, size).value.path ==
         (if fields.pathOffset > 0 && fields.pathSize > 0
          then Some(PySlice(data, fields.pathOffset, fields.pathOffset + fields.pathSize))
          else None)
      && ParseCachedEntry(f, data, offset, size).value.data ==
         (if fields.dataSize > 0
          then Some(PySlice(data, fields.dataOffset, fields.dataOffset + fields.dataSize))
          else None)
  {
    FieldsDispatch(f, data, offset, size);
    FieldsEntry(f, data, data[offset..offset + size], size);
  }

  /** For 2003, Vista and 7, ParseCachedEntry is ParseEntryFields on the entry's slice. */
  lemma FieldsDispatch(f: int, data: seq<byte>, offset: nat, size: nat)
    requires FieldsFormat(f) && offset + size <= |data|
    ensures ParseCachedEntry(f, data, offset, size) == ParseEntryFields(f, data, data[offset..offset + size], size)
  {
    assert PySlice(data, offset, offset + size) == data[offset..offset + size];
  }

  /** A whole entry of one of the two sizes parses, with its path and data read from the whole buffer. */
  lemma FieldsEntry(f: int, data: seq<byte>, c: seq<byte>, size: nat)
    requires FieldsFormat(f)
    requires size == EntrySize(f, false) || size == EntrySize(f, true)
    requires |c| == size
    ensures var fields := ReadEntryFields(f, size == EntrySize(f, true), c);
      && ParseEntryFields(f, data, c, size).Ok?
      && ParseEntryFields(f, data, c, size).value.path ==
         (if fields.pathOffset > 0 && fields.pathSize > 0
          then Some(PySlice(data, fields.pathOffset, fields.pathOffset + fields.pathSize))
          else None)
      && ParseEntryFields(f, data, c, size).value.data ==
         (if fields.dataSize > 0
          then Some(PySlice(data, fields.dataOffset, fields.dataOffset + fields.dataSize))
          else None)
  {
  }

  // ---------------------------------------------------------------------
  // Events

  /** The text of a registry event. */
  datatype EventText =
    | Alert(message: string)
    | EntryText(valueName: nat, path: Option<seq<byte>>)   // "Cached entry: <n>": "[Path: <path>]"
    | CountText(numberOfCachedEntries: nat)

  datatype RegEvent = RegEvent(keyPath: string, text: EventText, timestamp: int, offset: Option<nat>)

  /** The registry key the plugin reads: its path, last-written time and AppCompatCache value. */
  datatype RegKey = RegKey(path: string, lastWrittenTimestamp: int, appCompatCache: Option<seq<byte>>)

  /** Events yielded, and the exception that ended the generator if one did. */
  datatype Emitted = Emitted(events: seq<RegEvent>, error: Option<Exc>)

  const UNSUPPORTED_SIGNATURE: string := "REGALERT: Unsupported signature."
  const UNSUPPORTED_ENTRY_SIZE: string := "REGALERT: Unsupported cached entry size."

  function Prepend(events: seq<RegEvent>, e: Emitted): Emitted
  {
    Emitted(events + e.events, e.error)
  }

  /** The modification event, then the update event, of one entry. */
  function EntryEvents(key: RegKey, entry: CachedEntry, index: nat, offset: nat): (r: seq<RegEvent>)
    ensures |r| == (if entry.lastModificationTime.Some? then 1 else 0) + (if entry.lastUpdateTime.Some? then 1 else 0)
    ensures forall i :: 0 <= i < |r| ==> r[i].text == EntryText(index + 1, entry.path) && r[i].offset == Some(offset)
  {
    var text := EntryText(index + 1, entry.path);
    (if entry.lastModificationTime.Some?
     then [RegEvent(key.path, text, Timelib.FromFiletime(entry.lastModificationTime.value), Some(offset))]
     else [])
    + (if entry.lastUpdateTime.Some?
       then [RegEvent(key.path, text, Timelib.FromFiletime(entry.lastUpdateTime.value), Some(offset))]
       else [])
  }

  function Summary(key: RegKey, count: nat): RegEvent
  {
    RegEvent(key.path, CountText(count), key.lastWrittenTimestamp, None)
  }

  /** _ParseCachedEntry applied at a cursor, with the format, buffer and entry size fixed. */
  type EntryParser = nat -> Result<CachedEntry>

  function ParserFor(f: int, data: seq<byte>, size: nat): EntryParser
  {
    (offset: nat) => ParseCachedEntry(f, data, offset, size)
  }

  /** A parsed entry always moves the cursor forward. */
  ghost predicate Advances(parse: EntryParser)
  {
    forall offset: nat :: parse(offset).Ok? ==> parse(offset).value.cachedEntrySize > 0
  }

  lemma ParserAdvances(f: int, data: seq<byte>, size: nat)
    ensures Advances(ParserFor(f, data, size))
  {
    forall offset: nat | ParserFor(f, data, size)(offset).Ok?
      ensures ParserFor(f, data, size)(offset).value.cachedEntrySize > 0
    {
      assert ParserFor(f, data, size)(offset) == ParseCachedEntry(f, data, offset, size);
    }
  }

  /**
   * The record loop from offset on, with index entries already read: one
   * entry per step, advancing by the entry's own size, until the buffer
   * (of length end) ends or a non-zero declared count is reached; then the
   * summary event.
   */
  function EntryLoop(key: RegKey, parse: EntryParser, end: nat, count: nat, offset: nat, index: nat): (r: Emitted)
    requires Advances(parse)
    decreases end - offset
  {
    if offset >= end then Emitted([Summary(key, index)], None)
    else
      match parse(offset)
      case Err(e) => Emitted([], Some(e))
      case Ok(entry) =>
        var events := EntryEvents(key, entry, index, offset);
        if count != 0 && index + 1 >= count then Emitted(events + [Summary(key, index + 1)], None)
        else Prepend(events, EntryLoop(key, parse, end, count, offset + entry.cachedEntrySize, index + 1))
  }

  lemma PrependNothing(e: Emitted)
    ensures Prepend([], e) == e
  {
    assert [] + e.events == e.events;
  }

  lemma PrependAssoc(a: seq<RegEvent>, b: seq<RegEvent>, e: Emitted)
    ensures Prepend(a, Prepend(b, e)) == Prepend(a + b, e)
  {
    assert a + (b + e.events) == (a + b) + e.events;
  }

  /** What GetEntries yields for a key. */
  function Entries(key: RegKey): Emitted
  {
    match key.appCompatCache
    case None => Emitted([], None)
    case Some(data) =>
      match CheckSignature(data)
      case Err(e) => Emitted([], Some(e))
      case Ok(None) => Emitted([RegEvent(key.path, Alert(UNSUPPORTED_SIGNATURE), key.lastWrittenTimestamp, None)], None)
      case Ok(Some(f)) =>
        match ParseHeader(f, data)
        case Err(e) => Emitted([], Some(e))
        case Ok(header) =>
          if |data| <= header.headerSize then Emitted([], None)
          else
            match DetermineCacheEntrySize(f, data, header.headerSize)
            case Err(e) => Emitted([], Some(e))
            case Ok(size) =>
              if size.None? || size.value == 0 then
                Emitted([RegEvent(key.path, Alert(UNSUPPORTED_ENTRY_SIZE), key.lastWrittenTimestamp, None)], None)
              else
                ParserAdvances(f, data, size.value);
                EntryLoop(key, ParserFor(f, data, size.value), |data|, header.numberOfCachedEntries, header.headerSize, 0)
  }

  /** GetEntries, with its record loop over the cursor and the entry index. */
  method GetEntries(key: RegKey) returns (r: Emitted)
    ensures r == Entries(key)
  {
    if key.appCompatCache.None? {
      return Emitted([], None);
    }
    var data := key.appCompatCache.value;
    var formatType := CheckSignature(data);
    if formatType.Err? {
      return Emitted([], Some(formatType.exc));
    }
    if formatType.value.None? {
      return Emitted([RegEvent(key.path, Alert(UNSUPPORTED_SIGNATURE), key.lastWrittenTimestamp, None)], None);
    }
    var f := formatType.value.value;
    var header := ParseHeader(f, data);
    if header.Err? {
      return Emitted([], Some(header.exc));
    }
    if |data| <= header.value.headerSize {
      return Emitted([], None);
    }
    var offset := header.value.headerSize;
    var size := DetermineCacheEntrySize(f, data, offset);
    if size.Err? {
      return Emitted([], Some(size.exc));
    }
    if size.value.None? || size.value.value == 0 {
      return Emitted([RegEvent(key.path, Alert(UNSUPPORTED_ENTRY_SIZE), key.lastWrittenTimestamp, None)], None);
    }
    ParserAdvances(f, data, size.value.value);
    r := RunEntryLoop(key, ParserFor(f, data, size.value.value), |data|, header.value.numberOfCachedEntries, offset);
  }

  /** The record loop: cached_entry_offset and cached_entry_index advance together. */
  method RunEntryLoop(key: RegKey, parse: EntryParser, end: nat, count: nat, start: nat) returns (r: Emitted)
    requires Advances(parse)
    ensures r == EntryLoop(key, parse, end, count, start, 0)
  {
    ghost var whole := EntryLoop(key, parse, end, count, start, 0);
    var events: seq<RegEvent> := [];
    var offset := start;
    var index := 0;
    PrependNothing(whole);
    while offset < end
      invariant Prepend(events, EntryLoop(key, parse, end, count, offset, index)) == whole
      decreases end - offset
    {
      var entry := parse(offset);
      if entry.Err? {
        return Emitted(events, Some(entry.exc));
      }
      var step := EntryEvents(key, entry.value, index, offset);
      if count != 0 && index + 1 >= count {
        return Emitted(events + step + [Summary(key, index + 1)], None);
      }
      ghost var rest := EntryLoop(key, parse, end, count, offset + entry.value.cachedEntrySize, index + 1);
      assert EntryLoop(key, parse, end, count, offset, index) == Prepend(step, rest);
      PrependAssoc(events, step, rest);
      events := events + step;
      offset := offset + entry.value.cachedEntrySize;
      index := index + 1;
    }
    return Emitted(events + [Summary(key, index)], None);
  }

  // ---------------------------------------------------------------------
  // Properties of the event stream

  /** An unknown signature gives exactly one alert at the key's last-written time. */
  lemma UnsupportedSignatureAlert(key: RegKey)
    requires key.appCompatCache.Some? && CheckSignature(key.appCompatCache.value) == Ok(None)
    ensures Entries(key).events == [RegEvent(key.path, Alert(UNSUPPORTED_SIGNATURE), key.lastWrittenTimestamp, None)]
    ensures Entries(key).error.None?
  {
  }

  /** A buffer that holds exactly its header yields nothing; a shorter one ends in FieldError. */
  lemma HeaderOnlyBuffer(key: RegKey, f: int)
    requires key.appCompatCache.Some? && CheckSignature(key.appCompatCache.value) == Ok(Some(f))
    requires |key.appCompatCache.value| <= HeaderSize(f)
    ensures Entries(key).events == []
    ensures |key.appCompatCache.value| < HeaderSize(f) ==> Entries(key).error == Some(FieldError)
  {
  }

  /** Bounds-violating path sizes give exactly one alert. */
  lemma UnsupportedEntrySizeAlert(key: RegKey, f: int)
    requires key.appCompatCache.Some? && CheckSignature(key.appCompatCache.value) == Ok(Some(f))
    requires |key.appCompatCache.value| > HeaderSize(f)
    requires DetermineCacheEntrySize(f, key.appCompatCache.value, HeaderSize(f)) == Ok(None)
    ensures Entries(key).events == [RegEvent(key.path, Alert(UNSUPPORTED_ENTRY_SIZE), key.lastWrittenTimestamp, None)]
  {
  }

  /**
   * The cursors of the entries the record loop parses from offset on, with
   * index entries already read: each parses, lies before the end, and the
   * next follows it by its entry's size; the loop stops at a non-zero
   * declared count and at the first entry that does not parse.
   */
  function ParsedOffsets(parse: EntryParser, end: nat, count: nat, offset: nat, index: nat): (r: seq<nat>)
    requires Advances(parse)
    ensures r != [] ==> r[0] == offset
    ensures forall i :: 0 <= i < |r| ==> offset <= r[i] < end && parse(r[i]).Ok?
    ensures forall i :: 0 <= i < |r| - 1 ==> r[i + 1] == r[i] + parse(r[i]).value.cachedEntrySize
    ensures count != 0 && index < count ==> index + |r| <= count
    decreases end - offset
  {
    if offset >= end then []
    else
      match parse(offset)
      case Err(_) => []
      case Ok(entry) =>
        if count != 0 && index + 1 >= count then [offset]
        else
          var rest := ParsedOffsets(parse, end, count, offset + entry.cachedEntrySize, index + 1);
          assert forall i :: 1 <= i < |rest| + 1 ==> ([offset] + rest)[i] == rest[i - 1];
          [offset] + rest
  }

  /**
   * A loop that ends without an exception ends with exactly one summary
   * event, whose count is the entries read before it plus the entries it
   * parsed, and is at most a non-zero declared count.
   */
  lemma {:induction false} LoopEndsWithSummary(key: RegKey, parse: EntryParser, end: nat, count: nat,
                                                offset: nat, index: nat)
    requires Advances(parse) && (count == 0 || index < count)
    ensures var e, n := EntryLoop(key, parse, end, count, offset, index), index + |ParsedOffsets(parse, end, count, offset, index)|;
      e.error.None? ==> EndsWithSummary(e.events, n) && n >= index && (count != 0 ==> n <= count)
    decreases end - offset
  {
    if offset < end {
      match parse(offset)
      case Err(_) =>
      case Ok(entry) =>
        var events := EntryEvents(key, entry, index, offset);
        if count != 0 && index + 1 >= count {
          SummaryAfterEntries(events, Summary(key, index + 1), index + 1);
        } else {
          var rest := EntryLoop(key, parse, end, count, offset + entry.cachedEntrySize, index + 1);
          LoopEndsWithSummary(key, parse, end, count, offset + entry.cachedEntrySize, index + 1);
          if rest.error.None? {
            EntriesBeforeSummary(events, rest.events, index + |ParsedOffsets(parse, end, count, offset, index)|);
          }
        }
    }
  }

  /** Entry events, then one summary counting total entries. */
  predicate EndsWithSummary(events: seq<RegEvent>, total: nat)
  {
    && events != []
    && events[|events| - 1].text == CountText(total)
    && (forall i :: 0 <= i < |events| - 1 ==> events[i].text.EntryText?)
  }

  lemma SummaryAfterEntries(events: seq<RegEvent>, summary: RegEvent, total: nat)
    requires forall i :: 0 <= i < |events| ==> events[i].text.EntryText?
    requires summary.text == CountText(total)
    ensures EndsWithSummary(events + [summary], total)
  {
  }

  lemma EntriesBeforeSummary(events: seq<RegEvent>, rest: seq<RegEvent>, total: nat)
    requires forall i :: 0 <= i < |events| ==> events[i].text.EntryText?
    requires EndsWithSummary(rest, total)
    ensures EndsWithSummary(events + rest, total)
  {
    var all := events + rest;
    assert forall i :: |events| <= i < |all| ==> all[i] == rest[i - |events|];
  }

  /** Each entry contributes its modification event first, then its update event, both at its offset. */
  lemma EntryEventOrder(key: RegKey, entry: CachedEntry, index: nat, offset: nat)
    requires entry.lastModificationTime.Some? && entry.lastUpdateTime.Some?
    ensures var evs := EntryEvents(key, entry, index, offset);
      && |evs| == 2
      && evs[0].timestamp == Timelib.FromFiletime(entry.lastModificationTime.value)
      && evs[1].timestamp == Timelib.FromFiletime(entry.lastUpdateTime.value)
      && evs[0].offset == evs[1].offset == Some(offset)
  {
  }
}
