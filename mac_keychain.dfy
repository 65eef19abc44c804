/**
 * The Mac OS X Keychain parser (plaso/parsers/mac_keychain.py).
 *
 * A keychain file starts with a 20-byte database header and an 8-byte
 * schema, followed by one big-endian table offset per table. Every table
 * header names the record type and the number of records; internet and
 * application password records are read, each field through an offset
 * relative to the byte before the record. Everything is big-endian.
 *
 * The specification functions take the file's bytes and a cursor position
 * and give the value read with the position the read leaves behind; the
 * methods at the end read through a Common.FileObject, the stream the
 * parser seeks and reads on, and are proved against these functions.
 */
module MacKeychain {
  import opened Common
  import Timelib

  const MAGIC: string := "kych"
  const MAJOR_VERSION: nat := 1
  const MINOR_VERSION: nat := 0

  const RECORD_TYPE_APPLICATION: nat := 0x8000_0000
  const RECORD_TYPE_INTERNET: nat := 0x8000_0001

  /** KEYCHAIN_DB_HEADER.sizeof(): magic, two u16, two u32 and 4 bytes of padding. */
  const DB_HEADER_SIZE: nat := 20
  /** KEYCHAIN_DB_SCHEMA: size and number_of_tables. */
  const DB_SCHEMA_SIZE: nat := 8
  /** TABLE_HEADER: six u32 fields and 4 bytes of padding. */
  const TABLE_HEADER_SIZE: nat := 28
  /** RECORD_HEADER_APP: the common record header and 4 bytes of padding. */
  const RECORD_APP_SIZE: nat := 88
  /** RECORD_HEADER_INET: the common record header and five u32 fields (one of them padding). */
  const RECORD_INET_SIZE: nat := 104
  /** TIME: 'YYYYMMDDhhmmss' and 2 bytes of padding. */
  const TIME_SIZE: nat := 16

  /** _PROTOCOL_TRANSLATION_DICT */
  const PROTOCOL_TRANSLATION: map<string, string> :=
    map["htps" := "https", "smtp" := "smtp", "imap" := "imap", "http" := "http"]

  const NOT_AVAILABLE: string := "N/A"

  // ---------------------------------------------------------------------
  // Reading the stream

  /** A construct string of n bytes: None on a short read. */
  function FixedAt(data: seq<byte>, p: nat, n: nat): (r: (Option<string>, nat))
    ensures r.0.Some? <==> p + n <= |data|
    ensures r.0.Some? ==> r.0.value == Chars(data[p..p + n]) && r.1 == p + n
  {
    if p + n <= |data| then (Some(Chars(data[p..p + n])), p + n) else (None, Exhausted(data, p))
  }

  /** TEXT: a PascalString with a big-endian u32 length. */
  function TextAt(data: seq<byte>, p: nat): (r: (Option<string>, nat))
    ensures r.0.Some? ==> (p + 4 <= |data| && p + 4 + U32(data, p) <= |data|
      && r.0.value == Chars(data[p + 4..p + 4 + U32(data, p)])
      && r.1 == p + 4 + U32(data, p))
    ensures r.0.None? <==> p + 4 > |data| || p + 4 + U32(data, p) > |data|
  {
    if p + 4 > |data| then (None, Exhausted(data, p))
    else
      var n := U32(data, p);
      if p + 4 + n > |data| then (None, |data|)
      else (Some(Chars(data[p + 4..p + 4 + n])), p + 4 + n)
  }

  // ---------------------------------------------------------------------
  // Database header and schema

  datatype DbHeader = DbHeader(magic: string, majorVersion: nat, minorVersion: nat, headerSize: nat, schemaOffset: nat)

  /** KEYCHAIN_DB_HEADER at the start of the file. */
  function DbHeaderAt(data: seq<byte>): (r: Option<DbHeader>)
    ensures r.Some? <==> |data| >= DB_HEADER_SIZE
  {
    if |data| < DB_HEADER_SIZE then None
    else Some(DbHeader(Chars(data[0..4]), U16(data, 4), U16(data, 6), U32(data, 8), U32(data, 12)))
  }

  predicate IsKeychain(h: DbHeader)
  {
    h.magic == MAGIC && h.majorVersion == MAJOR_VERSION && h.minorVersion == MINOR_VERSION
  }

  /** Where the schema puts table i's offset: after the header and the schema's two u32 fields. */
  function OffsetSlot(i: nat): nat
  {
    DB_HEADER_SIZE + DB_SCHEMA_SIZE + 4 * i
  }

  /**
   * The absolute table positions: each stored offset is relative to the
   * schema, so the header size is added. None when a stored offset is cut off.
   */
  function TableOffsets(data: seq<byte>, count: nat): (r: Option<seq<nat>>)
    ensures r.Some? <==> OffsetSlot(count) <= |data|
    ensures r.Some? ==> |r.value| == count
  {
    if OffsetSlot(count) <= |data| then
      Some(seq(count, i requires 0 <= i < count => U32(data, OffsetSlot(i)) + DB_HEADER_SIZE))
    else None
  }

  /** The number_of_tables field of the schema that follows the header. */
  function NumberOfTables(data: seq<byte>): nat
    requires |data| >= DB_HEADER_SIZE + DB_SCHEMA_SIZE
  {
    U32(data, DB_HEADER_SIZE + 4)
  }

  /**
   * _VerifyStructure: the table positions of a keychain file, None when the
   * header is short or not 'kych' 1.0, or when the schema or an offset is
   * cut off.
   */
  function TablePositions(data: seq<byte>): (r: Option<seq<nat>>)
    ensures r.Some? <==> && |data| >= DB_HEADER_SIZE + DB_SCHEMA_SIZE
                         && IsKeychain(DbHeaderAt(data).value)
                         && OffsetSlot(NumberOfTables(data)) <= |data|
    ensures r.Some? ==> |r.value| == NumberOfTables(data)
    ensures r.Some? ==> forall i :: 0 <= i < |r.value| ==> r.value[i] >= DB_HEADER_SIZE
  {
    match DbHeaderAt(data)
    case None => None
    case Some(h) =>
      if !IsKeychain(h) || |data| < DB_HEADER_SIZE + DB_SCHEMA_SIZE then None
      else TableOffsets(data, NumberOfTables(data))
  }

  // ---------------------------------------------------------------------
  // Tables and records

  datatype TableHeader = TableHeader(
    tableSize: nat, recordType: nat, numberOfRecords: nat, firstRecord: nat,
    indexOffset: nat, recordNumberCount: nat)

  function TableHeaderAt(data: seq<byte>, p: nat): TableHeader
    requires p + TABLE_HEADER_SIZE <= |data|
  {
    TableHeader(U32(data, p), U32(data, p + 4), U32(data, p + 8), U32(data, p + 12),
                U32(data, p + 16), U32(data, p + 24))
  }

  /** RECORD_HEADER: the record length and the offsets of its fields, relative to the byte before the record. */
  datatype RecordHeader = RecordHeader(
    entryLength: nat, ssgpLength: nat, creationTime: nat, lastModTime: nat,
    textDescription: nat, comments: nat, entryName: nat, accountName: nat)

  function RecordHeaderAt(data: seq<byte>, p: nat): RecordHeader
    requires p + RECORD_APP_SIZE <= |data|
  {
    RecordHeader(U32(data, p), U32(data, p + 16), U32(data, p + 24), U32(data, p + 28),
                 U32(data, p + 32), U32(data, p + 40), U32(data, p + 52), U32(data, p + 76))
  }

  /** The fields RECORD_HEADER_INET adds after the common header. */
  datatype InetHeader = InetHeader(location: nat, protocol: nat, protocolType: nat, url: nat)

  function InetHeaderAt(data: seq<byte>, p: nat): InetHeader
    requires p + RECORD_INET_SIZE <= |data|
  {
    InetHeader(U32(data, p + 84), U32(data, p + 88), U32(data, p + 92), U32(data, p + 100))
  }

  /** Where a record field stored as `stored` is read: record_start + stored - 1. */
  function FieldPos(offset: nat, stored: nat): nat
    requires offset >= 1
  {
    stored + offset - 1
  }

  datatype TimeFields = TimeFields(year: string, month: string, day: string, hour: string, minute: string, second: string)

  /** TIME: fixed-width decimal strings. */
  function TimeAt(data: seq<byte>, p: nat): (r: (Option<TimeFields>, nat))
    ensures r.0.Some? <==> p + TIME_SIZE <= |data|
    ensures r.0.Some? ==> r.1 == p + TIME_SIZE
  {
    if p + TIME_SIZE <= |data| then
      (Some(TimeFields(Chars(data[p..p + 4]), Chars(data[p + 4..p + 6]), Chars(data[p + 6..p + 8]),
                       Chars(data[p + 8..p + 10]), Chars(data[p + 10..p + 12]), Chars(data[p + 12..p + 14]))),
       p + TIME_SIZE)
    else (None, Exhausted(data, p))
  }

  /**
   * _GetTimestampFromEntry: FromTimeParts of the six decimal fields, None
   * when one of them is no integer. In that case the ValueError handler
   * calls `.format` on the None that logging.warning returns, so the
   * record read ends in AttributeError (TimeField) instead of giving 0.
   */
  function TimestampOf(t: TimeFields, parts: Timelib.TimePartsFn): (r: Option<int>)
    ensures r.Some? <==> && PyInt(t.year, 10).Some? && PyInt(t.month, 10).Some? && PyInt(t.day, 10).Some?
                         && PyInt(t.hour, 10).Some? && PyInt(t.minute, 10).Some? && PyInt(t.second, 10).Some?
    ensures r.Some? ==> r.value == parts(Timelib.TimeParts(
      PyInt(t.year, 10).value, PyInt(t.month, 10).value, PyInt(t.day, 10).value,
      PyInt(t.hour, 10).value, PyInt(t.minute, 10).value, PyInt(t.second, 10).value, 0, "UTC"))
  {
    var year, month, day := PyInt(t.year, 10), PyInt(t.month, 10), PyInt(t.day, 10);
    var hour, minute, second := PyInt(t.hour, 10), PyInt(t.minute, 10), PyInt(t.second, 10);
    if year.Some? && month.Some? && day.Some? && hour.Some? && minute.Some? && second.Some? then
      Some(parts(Timelib.TimeParts(year.value, month.value, day.value, hour.value, minute.value, second.value, 0, "UTC")))
    else None
  }

  /**
   * The time conversion the record readers apply; the readers are stated
   * for any such conversion, and the parser uses Stamping(parts).
   */
  type Stamper = TimeFields -> Option<int>

  function Stamping(parts: Timelib.TimePartsFn): Stamper
  {
    t => TimestampOf(t, parts)
  }

  /** A time field read and converted; a short read is construct's FieldError. */
  function TimeField(data: seq<byte>, p: nat, stamp: Stamper): (r: (Result<int>, nat))
    ensures r.0.Err? ==> r.0.exc == FieldError || r.0.exc == AttributeError
  {
    var t := TimeAt(data, p);
    if t.0.None? then (Err(FieldError), t.1)
    else
      var v := stamp(t.0.value);
      if v.None? then (Err(AttributeError), t.1) else (Ok(v.value), t.1)
  }

  /** The exceptions a record read lets out of Parse. */
  predicate ReadFault(e: Exc)
  {
    e == FieldError || e == AttributeError || e == TypeError
  }

  /** A TEXT field; a short read is FieldError. */
  function TextField(data: seq<byte>, p: nat): (r: (Result<string>, nat))
    ensures r.0.Ok? <==> TextAt(data, p).0.Some?
    ensures r.0.Err? ==> r.0.exc == FieldError
    ensures r.0.Ok? ==> r.0.value == TextAt(data, p).0.value
    ensures r.1 == TextAt(data, p).1
  {
    var t := TextAt(data, p);
    if t.0.None? then (Err(FieldError), t.1) else (Ok(t.0.value), t.1)
  }

  /**
   * The hashed bytes: what read(ssgp_length) returns, without the 4 bytes
   * of its 'ssgp' tag. The events carry these bytes; the ssgp_hash string
   * the source stores is their hexlify (SsgpHash).
   */
  function SsgpBytes(raw: seq<byte>): (r: seq<byte>)
    ensures |r| == if |raw| <= 4 then 0 else |raw| - 4
  {
    if |raw| <= 4 then [] else raw[4..]
  }

  datatype EntryHeader = EntryHeader(
    ssgp: seq<byte>, creationTime: int, lastModTime: int, textDescription: string,
    comments: string, entryName: string, accountName: string)

  /** The creation and last modification times, read in that order. */
  function TimesOf(data: seq<byte>, rec: RecordHeader, offset: nat, stamp: Stamper): (r: (Result<(int, int)>, nat))
    requires offset >= 1
    ensures r.0.Err? ==> ReadFault(r.0.exc)
    ensures r.0.Ok? ==> (Some(r.0.value.0) == TimeStamp(data, FieldPos(offset, rec.creationTime), stamp)
      && Some(r.0.value.1) == TimeStamp(data, FieldPos(offset, rec.lastModTime), stamp))
  {
    var created := TimeField(data, FieldPos(offset, rec.creationTime), stamp);
    if created.0.Err? then (Err(created.0.exc), created.1)
    else
      var modified := TimeField(data, FieldPos(offset, rec.lastModTime), stamp);
      if modified.0.Err? then (Err(modified.0.exc), modified.1)
      else (Ok((created.0.value, modified.0.value)), modified.1)
  }

  /** The converted time read at p, when there is one. */
  function TimeStamp(data: seq<byte>, p: nat, stamp: Stamper): Option<int>
  {
    var t := TimeField(data, p, stamp).0;
    if t.Ok? then Some(t.value) else None
  }

  /** An optional TEXT field: 'N/A' without reading when its offset is 0, else the text at p. */
  function OptionalText(data: seq<byte>, stored: nat, p: nat, cursor: nat): (r: (Result<string>, nat))
    ensures r.0.Err? ==> r.0.exc == FieldError
    ensures r.0.Ok? && stored == 0 ==> r.0.value == NOT_AVAILABLE
    ensures r.0.Ok? && stored != 0 ==> TextAt(data, p).0 == Some(r.0.value)
  {
    if stored == 0 then (Ok(NOT_AVAILABLE), cursor) else TextField(data, p)
  }

  /**
   * The entry and account names. Their texts are read after the
   * description and comments, exactly where their offsets point.
   */
  function NamesOf(data: seq<byte>, rec: RecordHeader, offset: nat): (r: (Result<(string, string)>, nat))
    requires offset >= 1
    ensures r.0.Err? ==> r.0.exc == FieldError
    ensures r.0.Ok? ==> (TextAt(data, FieldPos(offset, rec.entryName)).0 == Some(r.0.value.0)
      && TextAt(data, FieldPos(offset, rec.accountName)).0 == Some(r.0.value.1))
  {
    var entryName := TextField(data, FieldPos(offset, rec.entryName));
    if entryName.0.Err? then (Err(FieldError), entryName.1)
    else
      var accountName := TextField(data, FieldPos(offset, rec.accountName));
      if accountName.0.Err? then (Err(FieldError), accountName.1)
      else (Ok((entryName.0.value, accountName.0.value)), accountName.1)
  }

  /**
   * _ReadEntryHeader for a record at offset whose fixed header ends at
   * start: the ssgp hash, then the two times, the text description and
   * the comments (the comments are read through the text_description
   * offset), then the entry and account names.
   */
  function EntryHeaderOf(data: seq<byte>, rec: RecordHeader, offset: nat, start: nat,
                         stamp: Stamper): (r: (Result<EntryHeader>, nat))
    requires offset >= 1
    ensures r.0.Err? ==> ReadFault(r.0.exc)
  {
    var raw := ReadAt(data, start, rec.ssgpLength).0;
    var times := TimesOf(data, rec, offset, stamp);
    if times.0.Err? then (Err(times.0.exc), times.1)
    else
      var description := OptionalText(data, rec.textDescription, FieldPos(offset, rec.textDescription), times.1);
      if description.0.Err? then (Err(FieldError), description.1)
      else
        var comments := OptionalText(data, rec.comments, FieldPos(offset, rec.textDescription), description.1);
        if comments.0.Err? then (Err(FieldError), comments.1)
        else
          var names := NamesOf(data, rec, offset);
          if names.0.Err? then (Err(FieldError), names.1)
          else
            (Ok(EntryHeader(SsgpBytes(raw), times.0.value.0, times.0.value.1, description.0.value,
                            comments.0.value, names.0.value.0, names.0.value.1)), names.1)
  }

  /** Where the password is used, its protocol and its translated sub-protocol. */
  datatype Location = Location(where: string, protocol: string, protocolType: string)

  function TranslateProtocol(t: string): string
  {
    if t in PROTOCOL_TRANSLATION then PROTOCOL_TRANSLATION[t] else t
  }

  /**
   * The internet record's where, protocol and type: 'N/A' for all three
   * when where is 0, otherwise read, with the url appended to where when
   * its offset is not 0.
   */
  function LocationOf(data: seq<byte>, inet: InetHeader, offset: nat, p: nat): (r: (Result<Location>, nat))
    requires offset >= 1
    ensures r.0.Err? ==> r.0.exc == FieldError
  {
    if inet.location == 0 then (Ok(Location(NOT_AVAILABLE, NOT_AVAILABLE, NOT_AVAILABLE)), p)
    else
      var where := TextField(data, FieldPos(offset, inet.location));
      if where.0.Err? then (Err(where.0.exc), where.1)
      else
        var protocol := FixedAt(data, FieldPos(offset, inet.protocol), 4);
        if protocol.0.None? then (Err(FieldError), protocol.1)
        else
          var protocolType := TextField(data, FieldPos(offset, inet.protocolType));
          if protocolType.0.Err? then (Err(protocolType.0.exc), protocolType.1)
          else if inet.url == 0 then
            (Ok(Location(where.0.value, protocol.0.value, TranslateProtocol(protocolType.0.value))), protocolType.1)
          else
            var url := TextField(data, FieldPos(offset, inet.url));
            if url.0.Err? then (Err(url.0.exc), url.1)
            else (Ok(Location(where.0.value + url.0.value, protocol.0.value, TranslateProtocol(protocolType.0.value))), url.1)
  }

  // ---------------------------------------------------------------------
  // Events

  datatype TimeDesc = CreationTime | ModificationTime

  datatype KeychainEvent =
    | InternetRecordEvent(
        timestamp: int, timestampDesc: TimeDesc, entryName: string, accountName: string,
        textDescription: string, comments: string, location: Location, ssgp: seq<byte>)
    | ApplicationRecordEvent(
        timestamp: int, timestampDesc: TimeDesc, entryName: string, accountName: string,
        textDescription: string, comments: string, ssgp: seq<byte>)

  /**
   * _ReadEntryInternet on the record at offset: nothing when the record
   * header is cut off; otherwise a creation event, and, when the
   * modification time differs, the TypeError of the second event's
   * constructor call, which leaves out ssgp_hash. The cursor is then at the
   * record's end.
   */
  function InternetEntry(data: seq<byte>, offset: nat, stamp: Stamper): (r: (Yielded<KeychainEvent>, nat))
    requires offset >= 1
    ensures r.0.error.Some? ==> ReadFault(r.0.error.value)
    ensures r.0.error.None? ==> r.1 >= offset
    ensures |r.0.events| <= 1
  {
    if offset + RECORD_INET_SIZE > |data| then (Yielded([], None), Exhausted(data, offset))
    else
      InternetBody(data, offset, RecordHeaderAt(data, offset), InetHeaderAt(data, offset), stamp)
  }

  /** An internet record after its fixed header: the common fields, the location, and the events. */
  function InternetBody(data: seq<byte>, offset: nat, rec: RecordHeader, inet: InetHeader, stamp: Stamper): (r: (Yielded<KeychainEvent>, nat))
    requires offset >= 1
    ensures r.0.error.Some? ==> ReadFault(r.0.error.value)
    ensures r.0.error.None? ==> r.1 >= offset
    ensures |r.0.events| <= 1
    ensures r.0.events != [] ==> r.1 == rec.entryLength + offset
  {
    InternetAfterHeader(data, offset, rec, inet, EntryHeaderOf(data, rec, offset, offset + RECORD_INET_SIZE, stamp))
  }

  /** The rest of an internet record once its common fields h are read. */
  function InternetAfterHeader(data: seq<byte>, offset: nat, rec: RecordHeader, inet: InetHeader,
                               h: (Result<EntryHeader>, nat)): (r: (Yielded<KeychainEvent>, nat))
    requires offset >= 1
    requires h.0.Err? ==> ReadFault(h.0.exc)
    ensures r.0.error.Some? ==> ReadFault(r.0.error.value)
    ensures r.0.error.None? ==> r.1 >= offset
    ensures |r.0.events| <= 1
    ensures r.0.events != [] ==> r.1 == rec.entryLength + offset
  {
    if h.0.Err? then (Yielded([], Some(h.0.exc)), h.1)
    else InternetEnd(offset, rec, h.0.value, LocationOf(data, inet, offset, h.1))
  }

  /** The events of an internet record once its location loc is read. */
  function InternetEnd(offset: nat, rec: RecordHeader, e: EntryHeader, loc: (Result<Location>, nat)): (r: (Yielded<KeychainEvent>, nat))
    requires loc.0.Err? ==> loc.0.exc == FieldError
    ensures r.0.error.Some? ==> ReadFault(r.0.error.value)
    ensures r.0.error.None? ==> r.1 >= offset
    ensures |r.0.events| <= 1
    ensures r.0.events != [] ==> r.1 == rec.entryLength + offset
  {
    if loc.0.Err? then (Yielded([], Some(loc.0.exc)), loc.1)
    else (InternetEvents(e, loc.0.value), rec.entryLength + offset)
  }

  /**
   * The creation event of an internet record, then the TypeError of the
   * modification event's constructor call when the times differ: that call
   * leaves out ssgp_hash.
   */
  function InternetEvents(e: EntryHeader, loc: Location): (r: Yielded<KeychainEvent>)
    ensures |r.events| == 1 && r.events[0].timestamp == e.creationTime
    ensures r.events[0].timestampDesc == CreationTime
    ensures r.events[0].InternetRecordEvent? && r.events[0].location == loc
    ensures r.error.Some? <==> e.creationTime != e.lastModTime
    ensures r.error.Some? ==> r.error.value == TypeError
  {
    var created := InternetRecordEvent(e.creationTime, CreationTime, e.entryName, e.accountName,
                                       e.textDescription, e.comments, loc, e.ssgp);
    Yielded([created], if e.creationTime != e.lastModTime then Some(TypeError) else None)
  }

  /** The creation and (when different) modification events of an application record. */
  function ApplicationEvents(e: EntryHeader): (r: seq<KeychainEvent>)
    ensures |r| == (if e.creationTime != e.lastModTime then 2 else 1)
    ensures r[0].timestamp == e.creationTime && r[0].timestampDesc == CreationTime
    ensures |r| == 2 ==> r[1].timestamp == e.lastModTime && r[1].timestampDesc == ModificationTime
    ensures forall i :: 0 <= i < |r| ==> (r[i].ApplicationRecordEvent? && r[i].entryName == e.entryName
      && r[i].ssgp == e.ssgp)
  {
    var created := ApplicationRecordEvent(e.creationTime, CreationTime, e.entryName, e.accountName,
                                          e.textDescription, e.comments, e.ssgp);
    if e.creationTime != e.lastModTime then
      [created, ApplicationRecordEvent(e.lastModTime, ModificationTime, e.entryName, e.accountName,
                                       e.textDescription, e.comments, e.ssgp)]
    else [created]
  }

  /** _ReadEntryApplication on the record at offset. */
  function ApplicationEntry(data: seq<byte>, offset: nat, stamp: Stamper): (r: (Yielded<KeychainEvent>, nat))
    requires offset >= 1
    ensures r.0.error.Some? ==> ReadFault(r.0.error.value)
    ensures r.0.error.None? ==> r.1 >= offset
    ensures |r.0.events| <= 2
  {
    if offset + RECORD_APP_SIZE > |data| then (Yielded([], None), Exhausted(data, offset))
    else
      ApplicationBody(data, offset, RecordHeaderAt(data, offset), stamp)
  }

  /** An application record after its fixed header. */
  function ApplicationBody(data: seq<byte>, offset: nat, rec: RecordHeader, stamp: Stamper): (r: (Yielded<KeychainEvent>, nat))
    requires offset >= 1
    ensures r.0.error.Some? ==> ReadFault(r.0.error.value)
    ensures r.0.error.None? ==> r.1 >= offset
    ensures |r.0.events| <= 2
    ensures r.0.events != [] ==> r.1 == rec.entryLength + offset
  {
    var h := EntryHeaderOf(data, rec, offset, offset + RECORD_APP_SIZE, stamp);
    if h.0.Err? then (Yielded([], Some(h.0.exc)), h.1)
    else (Yielded(ApplicationEvents(h.0.value), None), rec.entryLength + offset)
  }

  /** The ssgp_hash attribute of an event: two lower-case hex digits per hashed byte. */
  function SsgpHash(e: KeychainEvent): (r: string)
    ensures |r| == 2 * |e.ssgp|
  {
    Hexlify(e.ssgp)
  }

  predicate KnownRecordType(recordType: nat)
  {
    recordType == RECORD_TYPE_INTERNET || recordType == RECORD_TYPE_APPLICATION
  }

  /** One record of the given type. */
  function EntryOf(data: seq<byte>, offset: nat, recordType: nat, stamp: Stamper): (r: (Yielded<KeychainEvent>, nat))
    requires offset >= 1
    ensures r.0.error.Some? ==> ReadFault(r.0.error.value)
    ensures r.0.error.None? ==> r.1 >= offset
    ensures |r.0.events| <= 2
  {
    if recordType == RECORD_TYPE_INTERNET then InternetEntry(data, offset, stamp)
    else ApplicationEntry(data, offset, stamp)
  }

  /**
   * `for _ in range(number_of_records)`: records read one after another
   * from pos, with the cursor each leaves behind; an exception ends the
   * parse.
   */
  function RecordsFrom(data: seq<byte>, pos: nat, n: nat, recordType: nat, stamp: Stamper): (r: (Yielded<KeychainEvent>, nat))
    requires pos >= 1
    ensures r.0.error.None? ==> r.1 >= 1
    ensures r.0.error.Some? ==> ReadFault(r.0.error.value)
    ensures |r.0.events| <= 2 * n
    decreases n
  {
    if n == 0 then (Yielded([], None), pos)
    else
      var e := EntryOf(data, pos, recordType, stamp);
      if e.0.error.Some? then e
      else
        var rest := RecordsFrom(data, e.1, n - 1, recordType, stamp);
        (Then(e.0.events, rest.0), rest.1)
  }

  /**
   * The table at tableOffset: none when its header is cut off; otherwise
   * the cursor is moved to the first record, and only internet and
   * application tables have their records read.
   */
  function TableEvents(data: seq<byte>, tableOffset: nat, stamp: Stamper): (r: (Yielded<KeychainEvent>, nat))
    requires tableOffset >= 1
    ensures r.0.error.Some? ==> ReadFault(r.0.error.value)
  {
    if tableOffset + TABLE_HEADER_SIZE > |data| then (Yielded([], None), Exhausted(data, tableOffset))
    else
      var t := TableHeaderAt(data, tableOffset);
      var first := tableOffset + t.firstRecord;
      if KnownRecordType(t.recordType) then RecordsFrom(data, first, t.numberOfRecords, t.recordType, stamp)
      else (Yielded([], None), first)
  }

  /** The tables in schema order, from cursor position p. */
  function TablesFrom(data: seq<byte>, offsets: seq<nat>, p: nat, stamp: Stamper): (r: (Yielded<KeychainEvent>, nat))
    requires forall i :: 0 <= i < |offsets| ==> offsets[i] >= 1
    ensures r.0.error.Some? ==> ReadFault(r.0.error.value)
    decreases |offsets|
  {
    if offsets == [] then (Yielded([], None), p)
    else
      var t := TableEvents(data, offsets[0], stamp);
      if t.0.error.Some? then t
      else
        var rest := TablesFrom(data, offsets[1..], t.1, stamp);
        (Then(t.0.events, rest.0), rest.1)
  }

  /** Where _VerifyStructure leaves the cursor. */
  function StructureEnd(data: seq<byte>): nat
  {
    if |data| < DB_HEADER_SIZE then Exhausted(data, 0)
    else if !IsKeychain(DbHeaderAt(data).value) then DB_HEADER_SIZE
    else if |data| < DB_HEADER_SIZE + DB_SCHEMA_SIZE then Exhausted(data, DB_HEADER_SIZE)
    else if OffsetSlot(NumberOfTables(data)) <= |data| then OffsetSlot(NumberOfTables(data))
    else |data|
  }

  /**
   * KeychainParser.Parse from the start of the file: UnableToParseFile
   * unless _VerifyStructure finds at least one table; then the tables'
   * events, and the cursor where the last read left it.
   */
  function ParseOf(data: seq<byte>, stamp: Stamper): (r: (Yielded<KeychainEvent>, nat))
  {
    match TablePositions(data)
    case None => (Yielded([], Some(UnableToParseFile)), StructureEnd(data))
    case Some(offsets) =>
      if offsets == [] then (Yielded([], Some(UnableToParseFile)), StructureEnd(data))
      else TablesFrom(data, offsets, StructureEnd(data), stamp)
  }

  // ---------------------------------------------------------------------
  // Properties

  /** Parse raises UnableToParseFile, having yielded nothing, exactly when _VerifyStructure finds no table. */
  lemma RejectedExactlyWithoutTables(data: seq<byte>, stamp: Stamper)
    ensures ParseOf(data, stamp).0.error == Some(UnableToParseFile)
      <==> TablePositions(data).None? || TablePositions(data).value == []
    ensures ParseOf(data, stamp).0.error == Some(UnableToParseFile) ==> ParseOf(data, stamp).0.events == []
  {
  }

  /** A file too short for the header and schema, or not 'kych' 1.0, is rejected. */
  lemma NotKeychainRejected(data: seq<byte>, stamp: Stamper)
    requires |data| < DB_HEADER_SIZE + DB_SCHEMA_SIZE || !IsKeychain(DbHeaderAt(data).value)
    ensures ParseOf(data, stamp).0 == Yielded([], Some(UnableToParseFile))
  {
  }

  /** The table positions are the stored offsets in schema order, each plus the 20-byte header. */
  lemma OffsetsInSchemaOrder(data: seq<byte>)
    requires TablePositions(data).Some?
    ensures forall i :: 0 <= i < |TablePositions(data).value| ==>
      TablePositions(data).value[i] == U32(data, OffsetSlot(i)) + DB_HEADER_SIZE
  {
  }

  function RecordSize(recordType: nat): nat
  {
    if recordType == RECORD_TYPE_INTERNET then RECORD_INET_SIZE else RECORD_APP_SIZE
  }

  /**
   * A record header cut off by the end of the file leaves the cursor at
   * the end, so every remaining record of the table fails the same way and
   * the table yields nothing more.
   */
  lemma {:induction false} NothingAfterShortRecord(data: seq<byte>, pos: nat, n: nat, recordType: nat, stamp: Stamper)
    requires pos >= 1 && pos + RecordSize(recordType) > |data|
    ensures RecordsFrom(data, pos, n, recordType, stamp).0 == Yielded([], None)
    decreases n
  {
    if n > 0 {
      var e := EntryOf(data, pos, recordType, stamp);
      assert e == (Yielded([], None), Exhausted(data, pos));
      NothingAfterShortRecord(data, e.1, n - 1, recordType, stamp);
    }
  }

  /** A table whose header is cut off, or whose record type is neither kind, yields nothing. */
  lemma UnreadTableSkipped(data: seq<byte>, tableOffset: nat, stamp: Stamper)
    requires tableOffset >= 1
    requires tableOffset + TABLE_HEADER_SIZE > |data| || !KnownRecordType(TableHeaderAt(data, tableOffset).recordType)
    ensures TableEvents(data, tableOffset, stamp).0 == Yielded([], None)
  {
  }

  /**
   * The fields of a record are read at record start + stored offset - 1;
   * a zero text_description or comments offset gives 'N/A', and the
   * comments are read through the text_description offset.
   */
  lemma EntryFieldsAtOffsets(data: seq<byte>, rec: RecordHeader, offset: nat, start: nat, stamp: Stamper)
    requires offset >= 1 && EntryHeaderOf(data, rec, offset, start, stamp).0.Ok?
    ensures var e := EntryHeaderOf(data, rec, offset, start, stamp).0.value;
      && (rec.textDescription == 0 ==> e.textDescription == NOT_AVAILABLE)
      && (rec.textDescription != 0 ==> TextAt(data, FieldPos(offset, rec.textDescription)).0 == Some(e.textDescription))
      && (rec.comments == 0 ==> e.comments == NOT_AVAILABLE)
      && (rec.comments != 0 ==> TextAt(data, FieldPos(offset, rec.textDescription)).0 == Some(e.comments))
      && TextAt(data, FieldPos(offset, rec.entryName)).0 == Some(e.entryName)
      && TextAt(data, FieldPos(offset, rec.accountName)).0 == Some(e.accountName)
      && TimeStamp(data, FieldPos(offset, rec.creationTime), stamp) == Some(e.creationTime)
      && TimeStamp(data, FieldPos(offset, rec.lastModTime), stamp) == Some(e.lastModTime)
  {
  }

  /** With both offsets set, the comments repeat the text description. */
  lemma CommentsRepeatDescription(data: seq<byte>, rec: RecordHeader, offset: nat, start: nat, stamp: Stamper)
    requires offset >= 1 && EntryHeaderOf(data, rec, offset, start, stamp).0.Ok?
    requires rec.textDescription != 0 && rec.comments != 0
    ensures EntryHeaderOf(data, rec, offset, start, stamp).0.value.comments
         == EntryHeaderOf(data, rec, offset, start, stamp).0.value.textDescription
  {
    EntryFieldsAtOffsets(data, rec, offset, start, stamp);
  }

  /** A record that yields an event leaves the cursor at its start plus entry_length. */
  lemma CursorAtRecordEnd(data: seq<byte>, offset: nat, recordType: nat, stamp: Stamper)
    requires offset >= 1 && EntryOf(data, offset, recordType, stamp).0.events != []
    ensures offset + RecordSize(recordType) <= |data|
    ensures EntryOf(data, offset, recordType, stamp).1 == offset + RecordHeaderAt(data, offset).entryLength
  {
  }

  /**
   * The internet location: 'N/A' three times when where is 0; otherwise
   * where read at its offset with the url appended when there is one, and
   * the type translated through the protocol table.
   */
  lemma LocationFields(data: seq<byte>, inet: InetHeader, offset: nat, p: nat)
    requires offset >= 1 && LocationOf(data, inet, offset, p).0.Ok?
    ensures var loc := LocationOf(data, inet, offset, p).0.value;
      && (inet.location == 0 ==> loc == Location(NOT_AVAILABLE, NOT_AVAILABLE, NOT_AVAILABLE))
      && (inet.location != 0 ==>
            && loc.where == TextAt(data, FieldPos(offset, inet.location)).0.value
                            + (if inet.url != 0 then TextAt(data, FieldPos(offset, inet.url)).0.value else "")
            && loc.protocol == FixedAt(data, FieldPos(offset, inet.protocol), 4).0.value
            && loc.protocolType == TranslateProtocol(TextAt(data, FieldPos(offset, inet.protocolType)).0.value))
  {
  }

  /** Known sub-protocols are translated; unknown ones are kept. */
  lemma ProtocolTranslation(t: string)
    ensures TranslateProtocol("htps") == "https"
    ensures t !in PROTOCOL_TRANSLATION ==> TranslateProtocol(t) == t
  {
  }

  /** A time that is no decimal number ends the record read in AttributeError, not in a 0 timestamp. */
  lemma InvalidTimeRaises(data: seq<byte>, p: nat, parts: Timelib.TimePartsFn)
    requires TimeAt(data, p).0.Some? && PyInt(TimeAt(data, p).0.value.year, 10).None?
    ensures TimeField(data, p, Stamping(parts)).0 == Err(AttributeError)
  {
  }

  /** A record body in terms of the common fields h read from its fixed header's end, leaving the cursor at o. */
  lemma ApplicationBodyUnfolded(data: seq<byte>, offset: nat, rec: RecordHeader, stamp: Stamper, h: Result<EntryHeader>, o: nat)
    requires offset >= 1 && (h, o) == EntryHeaderOf(data, rec, offset, offset + RECORD_APP_SIZE, stamp)
    ensures ApplicationBody(data, offset, rec, stamp)
      == if h.Err? then (Yielded([], Some(h.exc)), o) else (Yielded(ApplicationEvents(h.value), None), rec.entryLength + offset)
  {
  }

  lemma InternetBodyUnfolded(data: seq<byte>, offset: nat, rec: RecordHeader, inet: InetHeader, stamp: Stamper,
                             h: Result<EntryHeader>, o: nat)
    requires offset >= 1 && (h, o) == EntryHeaderOf(data, rec, offset, offset + RECORD_INET_SIZE, stamp)
    ensures InternetBody(data, offset, rec, inet, stamp)
      == if h.Err? then (Yielded([], Some(h.exc)), o) else InternetEnd(offset, rec, h.value, LocationOf(data, inet, offset, o))
  {
  }

  // ---------------------------------------------------------------------
  // The parser on a file object

  /** TEXT.parse_stream */
  method ReadText(f: FileObject) returns (t: Option<string>)
    modifies f
    ensures (t, f.offset) == TextAt(f.data, old(f.offset))
  {
    var n := f.ReadU32();
    if n.None? {
      return None;
    }
    var b := f.ReadField(n.value);
    if b.None? {
      return None;
    }
    t := Some(Chars(b.value));
  }

  /** TEXT.parse_stream at p, with construct's FieldError as an error value. */
  method ReadTextField(f: FileObject, p: nat) returns (t: Result<string>)
    modifies f
    ensures (t, f.offset) == TextField(f.data, p)
  {
    f.Seek(p);
    var text := ReadText(f);
    t := if text.None? then Err(FieldError) else Ok(text.value);
  }

  /** TIME.parse_stream at p and _GetTimestampFromEntry. */
  method ReadTime(f: FileObject, p: nat, stamp: Stamper) returns (t: Result<int>)
    modifies f
    ensures (t, f.offset) == TimeField(f.data, p, stamp)
  {
    f.Seek(p);
    var b := f.ReadField(TIME_SIZE);
    if b.None? {
      return Err(FieldError);
    }
    var raw := b.value;
    SliceInRead(f.data, p, TIME_SIZE, 0, 4);
    SliceInRead(f.data, p, TIME_SIZE, 4, 6);
    SliceInRead(f.data, p, TIME_SIZE, 6, 8);
    SliceInRead(f.data, p, TIME_SIZE, 8, 10);
    SliceInRead(f.data, p, TIME_SIZE, 10, 12);
    SliceInRead(f.data, p, TIME_SIZE, 12, 14);
    var fields := TimeFields(Chars(raw[0..4]), Chars(raw[4..6]), Chars(raw[6..8]), Chars(raw[8..10]), Chars(raw[10..12]), Chars(raw[12..14]));
    var v := stamp(fields);
    t := if v.None? then Err(AttributeError) else Ok(v.value);
  }

  /** An optional TEXT field: 'N/A' without a seek when its offset is 0. */
  method ReadOptionalText(f: FileObject, stored: nat, p: nat) returns (t: Result<string>)
    modifies f
    ensures (t, f.offset) == OptionalText(f.data, stored, p, old(f.offset))
  {
    if stored == 0 {
      t := Ok(NOT_AVAILABLE);
    } else {
      t := ReadTextField(f, p);
    }
  }

  /** _ReadEntryHeader, with the cursor just after the record's fixed header. */
  method ReadEntryHeader(f: FileObject, rec: RecordHeader, offset: nat, stamp: Stamper) returns (r: Result<EntryHeader>)
    requires offset >= 1
    modifies f
    ensures (r, f.offset) == EntryHeaderOf(f.data, rec, offset, old(f.offset), stamp)
  {
    var raw := f.Read(rec.ssgpLength);
    var created := ReadTime(f, FieldPos(offset, rec.creationTime), stamp);
    if created.Err? {
      return Err(created.exc);
    }
    var modified := ReadTime(f, FieldPos(offset, rec.lastModTime), stamp);
    if modified.Err? {
      return Err(modified.exc);
    }
    var description := ReadOptionalText(f, rec.textDescription, FieldPos(offset, rec.textDescription));
    if description.Err? {
      return Err(FieldError);
    }
    var comments := ReadOptionalText(f, rec.comments, FieldPos(offset, rec.textDescription));
    if comments.Err? {
      return Err(FieldError);
    }
    var entryName := ReadTextField(f, FieldPos(offset, rec.entryName));
    if entryName.Err? {
      return Err(FieldError);
    }
    var accountName := ReadTextField(f, FieldPos(offset, rec.accountName));
    if accountName.Err? {
      return Err(FieldError);
    }
    r := Ok(EntryHeader(SsgpBytes(raw), created.value, modified.value, description.value,
                        comments.value, entryName.value, accountName.value));
  }

  /** The common record header decoded from the bytes read for it. */
  method DecodeRecordHeader(f: FileObject, offset: nat, raw: seq<byte>, size: nat) returns (rec: RecordHeader)
    requires RECORD_APP_SIZE <= size && offset + size <= |f.data| && raw == f.data[offset..offset + size]
    ensures rec == RecordHeaderAt(f.data, offset)
  {
    U32InRead(f.data, offset, size, 0);
    U32InRead(f.data, offset, size, 16);
    U32InRead(f.data, offset, size, 24);
    U32InRead(f.data, offset, size, 28);
    U32InRead(f.data, offset, size, 32);
    U32InRead(f.data, offset, size, 40);
    U32InRead(f.data, offset, size, 52);
    U32InRead(f.data, offset, size, 76);
    rec := RecordHeader(U32(raw, 0), U32(raw, 16), U32(raw, 24), U32(raw, 28),
                        U32(raw, 32), U32(raw, 40), U32(raw, 52), U32(raw, 76));
  }

  /** The internet record header's own fields decoded from the bytes read for it. */
  method DecodeInetHeader(f: FileObject, offset: nat, raw: seq<byte>) returns (inet: InetHeader)
    requires offset + RECORD_INET_SIZE <= |f.data| && raw == f.data[offset..offset + RECORD_INET_SIZE]
    ensures inet == InetHeaderAt(f.data, offset)
  {
    U32InRead(f.data, offset, RECORD_INET_SIZE, 84);
    U32InRead(f.data, offset, RECORD_INET_SIZE, 88);
    U32InRead(f.data, offset, RECORD_INET_SIZE, 92);
    U32InRead(f.data, offset, RECORD_INET_SIZE, 100);
    inet := InetHeader(U32(raw, 84), U32(raw, 88), U32(raw, 92), U32(raw, 100));
  }

  /** The where, protocol and type of an internet record. */
  method ReadLocation(f: FileObject, inet: InetHeader, offset: nat) returns (r: Result<Location>)
    requires offset >= 1
    modifies f
    ensures (r, f.offset) == LocationOf(f.data, inet, offset, old(f.offset))
  {
    if inet.location == 0 {
      return Ok(Location(NOT_AVAILABLE, NOT_AVAILABLE, NOT_AVAILABLE));
    }
    var where := ReadTextField(f, FieldPos(offset, inet.location));
    if where.Err? {
      return Err(where.exc);
    }
    f.Seek(FieldPos(offset, inet.protocol));
    var protocol := f.ReadField(4);
    if protocol.None? {
      return Err(FieldError);
    }
    var protocolType := ReadTextField(f, FieldPos(offset, inet.protocolType));
    if protocolType.Err? {
      return Err(protocolType.exc);
    }
    var location := where.value;
    if inet.url != 0 {
      var url := ReadTextField(f, FieldPos(offset, inet.url));
      if url.Err? {
        return Err(url.exc);
      }
      location := location + url.value;
    }
    r := Ok(Location(location, Chars(protocol.value), TranslateProtocol(protocolType.value)));
  }

  /** _ReadEntryInternet */
  method ReadEntryInternet(f: FileObject, stamp: Stamper) returns (y: Yielded<KeychainEvent>)
    requires f.offset >= 1
    modifies f
    ensures (y, f.offset) == InternetEntry(f.data, old(f.offset), stamp)
  {
    var offset := f.offset;
    var raw := f.ReadField(RECORD_INET_SIZE);
    if raw.None? {
      return Yielded([], None);
    }
    var rec := DecodeRecordHeader(f, offset, raw.value, RECORD_INET_SIZE);
    var inet := DecodeInetHeader(f, offset, raw.value);
    y := ReadInternetBody(f, offset, rec, inet, stamp);
  }

  method ReadInternetBody(f: FileObject, offset: nat, rec: RecordHeader, inet: InetHeader, stamp: Stamper) returns (y: Yielded<KeychainEvent>)
    requires offset >= 1 && f.offset == offset + RECORD_INET_SIZE
    modifies f
    ensures (y, f.offset) == InternetBody(f.data, offset, rec, inet, stamp)
  {
    var h := ReadEntryHeader(f, rec, offset, stamp);
    InternetBodyUnfolded(f.data, offset, rec, inet, stamp, h, f.offset);
    if h.Err? {
      return Yielded([], Some(h.exc));
    }
    y := ReadInternetEnd(f, offset, rec, inet, h.value);
  }

  /** The location and the events of an internet record whose common fields are e. */
  method ReadInternetEnd(f: FileObject, offset: nat, rec: RecordHeader, inet: InetHeader, e: EntryHeader) returns (y: Yielded<KeychainEvent>)
    requires offset >= 1
    modifies f
    ensures (y, f.offset) == InternetEnd(offset, rec, e, LocationOf(f.data, inet, offset, old(f.offset)))
  {
    var loc := ReadLocation(f, inet, offset);
    if loc.Err? {
      return Yielded([], Some(loc.exc));
    }
    f.Seek(rec.entryLength + offset);
    y := InternetEvents(e, loc.value);
  }

  /** _ReadEntryApplication */
  method ReadEntryApplication(f: FileObject, stamp: Stamper) returns (y: Yielded<KeychainEvent>)
    requires f.offset >= 1
    modifies f
    ensures (y, f.offset) == ApplicationEntry(f.data, old(f.offset), stamp)
  {
    var offset := f.offset;
    var raw := f.ReadField(RECORD_APP_SIZE);
    if raw.None? {
      return Yielded([], None);
    }
    var rec := DecodeRecordHeader(f, offset, raw.value, RECORD_APP_SIZE);
    y := ReadApplicationBody(f, offset, rec, stamp);
  }

  method ReadApplicationBody(f: FileObject, offset: nat, rec: RecordHeader, stamp: Stamper) returns (y: Yielded<KeychainEvent>)
    requires offset >= 1 && f.offset == offset + RECORD_APP_SIZE
    modifies f
    ensures (y, f.offset) == ApplicationBody(f.data, offset, rec, stamp)
  {
    var h := ReadEntryHeader(f, rec, offset, stamp);
    ApplicationBodyUnfolded(f.data, offset, rec, stamp, h, f.offset);
    if h.Err? {
      return Yielded([], Some(h.exc));
    }
    f.Seek(rec.entryLength + offset);
    y := Yielded(ApplicationEvents(h.value), None);
  }

  /** One record of a known type. */
  method ReadEntry(f: FileObject, recordType: nat, stamp: Stamper) returns (y: Yielded<KeychainEvent>)
    requires f.offset >= 1
    modifies f
    ensures (y, f.offset) == EntryOf(f.data, old(f.offset), recordType, stamp)
  {
    if recordType == RECORD_TYPE_INTERNET {
      y := ReadEntryInternet(f, stamp);
    } else {
      y := ReadEntryApplication(f, stamp);
    }
  }

  /** One table: its header, then number_of_records records of a known type. */
  method ReadTable(f: FileObject, tableOffset: nat, stamp: Stamper) returns (y: Yielded<KeychainEvent>)
    requires tableOffset >= 1
    modifies f
    ensures (y, f.offset) == TableEvents(f.data, tableOffset, stamp)
  {
    f.Seek(tableOffset);
    var raw := f.ReadField(TABLE_HEADER_SIZE);
    if raw.None? {
      return Yielded([], None);
    }
    U32InRead(f.data, tableOffset, TABLE_HEADER_SIZE, 4);
    U32InRead(f.data, tableOffset, TABLE_HEADER_SIZE, 8);
    U32InRead(f.data, tableOffset, TABLE_HEADER_SIZE, 12);
    var recordType, count, firstRecord := U32(raw.value, 4), U32(raw.value, 8), U32(raw.value, 12);
    assert TableHeaderAt(f.data, tableOffset).recordType == recordType;
    assert TableHeaderAt(f.data, tableOffset).numberOfRecords == count;
    assert TableHeaderAt(f.data, tableOffset).firstRecord == firstRecord;
    var start := tableOffset + firstRecord;
    f.Seek(start);
    if !KnownRecordType(recordType) {
      return Yielded([], None);
    }
    var events: seq<KeychainEvent> := [];
    ThenNothing(RecordsFrom(f.data, start, count, recordType, stamp).0);
    var k := 0;
    while k < count
      invariant 0 <= k <= count && f.offset >= 1
      invariant var rest := RecordsFrom(f.data, f.offset, count - k, recordType, stamp);
        (Then(events, rest.0), rest.1) == RecordsFrom(f.data, start, count, recordType, stamp)
    {
      var r := ReadEntry(f, recordType, stamp);
      if r.error.Some? {
        return Then(events, r);
      }
      ThenThen(events, r.events, RecordsFrom(f.data, f.offset, count - k - 1, recordType, stamp).0);
      events := events + r.events;
      k := k + 1;
    }
    assert events + [] == events;
    y := Yielded(events, None);
  }

  /** _VerifyStructure from the start of the file: the header, the schema and the table offsets. */
  method VerifyStructure(f: FileObject) returns (offsets: Option<seq<nat>>)
    requires f.offset == 0
    modifies f
    ensures offsets == TablePositions(f.data) && f.offset == StructureEnd(f.data)
  {
    var header := f.ReadField(DB_HEADER_SIZE);
    if header.None? {
      return None;
    }
    U16InRead(f.data, 0, DB_HEADER_SIZE, 4);
    U16InRead(f.data, 0, DB_HEADER_SIZE, 6);
    var magic, major, minor := Chars(header.value[0..4]), U16(header.value, 4), U16(header.value, 6);
    SliceInRead(f.data, 0, DB_HEADER_SIZE, 0, 4);
    if minor != MINOR_VERSION || major != MAJOR_VERSION || magic != MAGIC {
      return None;
    }
    var schema := f.ReadField(DB_SCHEMA_SIZE);
    if schema.None? {
      return None;
    }
    U32InRead(f.data, DB_HEADER_SIZE, DB_SCHEMA_SIZE, 4);
    var count := U32(schema.value, 4);
    var found: seq<nat> := [];
    var k := 0;
    while k < count
      invariant 0 <= k <= count && f.offset == OffsetSlot(k) <= |f.data|
      invariant found == seq(k, i requires 0 <= i < k => U32(f.data, OffsetSlot(i)) + DB_HEADER_SIZE)
    {
      var tableOffset := f.ReadU32();
      if tableOffset.None? {
        return None;
      }
      found := found + [tableOffset.value + DB_HEADER_SIZE];
      k := k + 1;
    }
    offsets := Some(found);
  }

  /** KeychainParser.Parse on a freshly opened file object. */
  method Parse(f: FileObject, stamp: Stamper) returns (y: Yielded<KeychainEvent>)
    requires f.offset == 0
    modifies f
    ensures (y, f.offset) == ParseOf(f.data, stamp)
  {
    var offsets := VerifyStructure(f);
    if offsets.None? || offsets.value == [] {
      return Yielded([], Some(UnableToParseFile));
    }
    var tables := offsets.value;
    var events: seq<KeychainEvent> := [];
    assert tables[0..] == tables;
    ThenNothing(TablesFrom(f.data, tables, StructureEnd(f.data), stamp).0);
    var i := 0;
    while i < |tables|
      invariant 0 <= i <= |tables|
      invariant var rest := TablesFrom(f.data, tables[i..], f.offset, stamp);
        (Then(events, rest.0), rest.1) == TablesFrom(f.data, tables, StructureEnd(f.data), stamp)
    {
      var t := ReadTable(f, tables[i], stamp);
      assert tables[i..][1..] == tables[i + 1..];
      if t.error.Some? {
        return Then(events, t);
      }
      ThenThen(events, t.events, TablesFrom(f.data, tables[i + 1..], f.offset, stamp).0);
      events := events + t.events;
      i := i + 1;
    }
    assert tables[i..] == [] && events + [] == events;
    y := Yielded(events, None);
  }
}
