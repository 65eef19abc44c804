/**
 * The Firefox cache parser (plaso/parsers/firefox_cache.py).
 *
 * A Firefox cache map file is cut into blocks of 256, 1024 or 4096 bytes.
 * A record starts on a block boundary with a 36-byte big-endian header,
 * followed by the request (the URL and a null byte) and the response
 * metadata (null-separated keys and values). The parser first probes the
 * start of the file with the smallest block size to find the first record
 * and derive the block size from it, then walks the file record by record,
 * skipping one block at a time past anything that is not a record.
 *
 * The specification functions take the file's bytes and a cursor position;
 * the methods read through a Common.FileObject and are proved against them.
 */
module FirefoxCache {
  import opened Common
  import Timelib

  /** RECORD_HEADER_SIZE: two u16 and eight u32 fields. */
  const RECORD_HEADER_SIZE: nat := 36
  /** INITIAL_CACHE_FILE_SIZE: how far the block size probe reads. */
  const INITIAL_CACHE_FILE_SIZE: nat := 1024 * 1024 * 4
  const MIN_BLOCK_SIZE: nat := 256

  const REQUEST_METHODS: seq<string> := ["GET", "HEAD", "POST", "PUT", "DELETE", "TRACE", "OPTIONS", "CONNECT", "PATCH"]

  const METHOD_MARK: string := "request-method\0"
  const RESPONSE_MARK: string := "response-head\0"

  /** The block sizes of the _CACHE_001_, _CACHE_002_ and _CACHE_003_ files. */
  predicate IsBlockSize(blockSize: nat)
  {
    blockSize == 256 || blockSize == 1024 || blockSize == 4096
  }

  // ---------------------------------------------------------------------
  // Records

  /** RECORD_HEADER_STRUCT */
  datatype RecordHeader = RecordHeader(
    major: nat, minor: nat, location: nat, fetchCount: nat, lastFetched: nat,
    lastModified: nat, expireTime: nat, dataSize: nat, requestSize: nat, infoSize: nat)

  /** The n consecutive UBInt32 values from byte p on. */
  function Words(data: seq<byte>, p: nat, n: nat): (r: seq<nat>)
    requires p + 4 * n <= |data|
    ensures |r| == n
  {
    if n == 0 then [] else Words(data, p, n - 1) + [U32(data, p + 4 * (n - 1))]
  }

  lemma {:induction false} WordsAt(data: seq<byte>, p: nat, n: nat, i: nat)
    requires p + 4 * n <= |data| && i < n
    ensures Words(data, p, n)[i] == U32(data, p + 4 * i)
  {
    if i < n - 1 {
      WordsAt(data, p, n - 1, i);
    }
  }

  /** RECORD_HEADER_STRUCT at p: two UBInt16 then eight UBInt32. */
  function RecordHeaderAt(data: seq<byte>, p: nat): RecordHeader
    requires p + RECORD_HEADER_SIZE <= |data|
  {
    var w := Words(data, p + 4, 8);
    RecordHeader(U16(data, p), U16(data, p + 2), w[0], w[1], w[2], w[3], w[4], w[5], w[6], w[7])
  }

  /** The bytes a record takes: its header, its request and its response metadata. */
  function RecordSize(c: RecordHeader): nat
  {
    RECORD_HEADER_SIZE + c.requestSize + c.infoSize
  }

  /**
   * __Accept: a request, at least one fetch, major version 1, and fewer
   * than 256 blocks; the block count bound is stated without the division
   * (AcceptByQuotient gives the quotient form).
   */
  predicate Accept(c: RecordHeader, blockSize: nat)
    requires IsBlockSize(blockSize)
  {
    c.requestSize > 0 && c.fetchCount > 0 && c.major == 1 && RecordSize(c) < 256 * blockSize
  }

  /** Accept's size bound is the source's record_size // block_size < 256. */
  lemma AcceptByQuotient(c: RecordHeader, blockSize: nat)
    requires IsBlockSize(blockSize)
    ensures Accept(c, blockSize) <==>
      c.requestSize > 0 && c.fetchCount > 0 && c.major == 1 && RecordSize(c) / blockSize < 256
  {
    var n, q, m := RecordSize(c), RecordSize(c) / blockSize, RecordSize(c) % blockSize;
    assert n == q * blockSize + m && 0 <= m < blockSize;
    if q < 256 {
      assert q * blockSize <= 255 * blockSize;
    } else {
      assert q * blockSize >= 256 * blockSize;
    }
  }

  /** A FirefoxCacheEvent: the record header and what is read after it; its timestamp is the last fetch, an ADDED_TIME. */
  datatype CacheEvent = CacheEvent(
    timestamp: int, header: RecordHeader, requestMethod: string, url: string, responseCode: string)

  /**
   * The request method: the text after the first 'request-method\0' up to
   * the next null byte, or '' when the metadata has no request method.
   */
  function RequestMethod(headers: string): (r: string)
    ensures !Contains(headers, METHOD_MARK) ==> r == ""
    ensures Contains(headers, METHOD_MARK) ==>
      var rest := headers[Find(headers, METHOD_MARK).value + |METHOD_MARK|..];
      StartsWith(rest, r) && (|r| == |rest| || rest[|r|] == '\0')
    ensures !Contains(r, "\0")
  {
    var rest := Partition(headers, METHOD_MARK).2;
    var r := Partition(rest, "\0").0;
    assert rest == r + Partition(rest, "\0").1 + Partition(rest, "\0").2;
    r
  }

  /**
   * The response code: the first line (up to CRLF) of the text after the
   * first 'response-head\0', or '' when there is none.
   */
  function ResponseCode(headers: string): (r: string)
    ensures !Contains(headers, RESPONSE_MARK) ==> r == ""
    ensures Contains(headers, RESPONSE_MARK) ==>
      var rest := headers[Find(headers, RESPONSE_MARK).value + |RESPONSE_MARK|..];
      StartsWith(rest, r) && (|r| == |rest| || At(rest, "\r\n", |r|))
    ensures !Contains(r, "\r\n")
  {
    var rest := Partition(headers, RESPONSE_MARK).2;
    var r := Partition(rest, "\r\n").0;
    assert rest == r + Partition(rest, "\r\n").1 + Partition(rest, "\r\n").2;
    r
  }

  /**
   * Where the cursor goes after an accepted record that starts at p and
   * whose reads ended at end: seek(block_size - remainder) from there, the
   * remainder being what was read modulo the block size.
   */
  function NextBlock(p: nat, end: nat, blockSize: nat): (r: nat)
    requires IsBlockSize(blockSize) && p <= end
    ensures r > end && r >= p + blockSize
  {
    end + blockSize - (end - p) % blockSize
  }

  /**
   * That is the first block boundary after the bytes read, one whole block
   * further when they end exactly on a boundary.
   */
  lemma NextBlockAligned(p: nat, end: nat, blockSize: nat)
    requires IsBlockSize(blockSize) && p <= end
    ensures var r := NextBlock(p, end, blockSize);
      (r - p) % blockSize == 0 && r - end <= blockSize
      && ((end - p) % blockSize == 0 ==> r == end + blockSize)
  {
    var q, rem := (end - p) / blockSize, (end - p) % blockSize;
    assert end - p == q * blockSize + rem;
    assert NextBlock(p, end, blockSize) - p == (q + 1) * blockSize;
  }

  /** The event of an accepted record whose request and response metadata are the bytes read. */
  function EventOf(c: RecordHeader, request: seq<byte>, headers: seq<byte>): (e: CacheEvent)
    ensures e.header == c && e.timestamp == Timelib.FromPosixTime(c.lastFetched)
    ensures e.url == Chars(DropLast(request))
  {
    var text := Chars(headers);
    CacheEvent(Timelib.FromPosixTime(c.lastFetched), c, RequestMethod(text), Chars(DropLast(request)), ResponseCode(text))
  }

  /**
   * __NextRecord at p: IOError when the header is cut off (the short
   * read leaves the cursor at the end) or not accepted (the cursor moves
   * one block past p); otherwise the event, with the cursor on the next
   * block boundary after what was read.
   */
  function NextRecordOf(data: seq<byte>, p: nat, blockSize: nat): (r: (Result<CacheEvent>, nat))
    requires IsBlockSize(blockSize)
    ensures r.0.Err? ==> r.0.exc == IOError
    ensures r.0.Ok? ==> r.1 >= p + blockSize
    ensures p < |data| ==> r.1 > p
  {
    if p + RECORD_HEADER_SIZE > |data| then (Err(IOError), Exhausted(data, p))
    else
      var c := RecordHeaderAt(data, p);
      if !Accept(c, blockSize) then (Err(IOError), p + blockSize)
      else AcceptedRecordOf(data, p, c, blockSize)
  }

  /**
   * The rest of __NextRecord at p once its header c is accepted: the
   * request and the response metadata are read after the header, and the
   * cursor goes to the next block boundary.
   */
  function AcceptedRecordOf(data: seq<byte>, p: nat, c: RecordHeader, blockSize: nat): (r: (Result<CacheEvent>, nat))
    requires IsBlockSize(blockSize)
    ensures r.0.Ok? && r.0.value.header == c && r.1 >= p + blockSize
  {
    var request := ReadAt(data, p + RECORD_HEADER_SIZE, c.requestSize);
    var headers := ReadAt(data, request.1, c.infoSize);
    (Ok(EventOf(c, request.0, headers.0)), AcceptedRecordEnd(data, p, c, blockSize))
  }

  /** Where the reads of an accepted record at p end. */
  function ReadEnd(data: seq<byte>, p: nat, c: RecordHeader): (r: nat)
    ensures r >= p + RECORD_HEADER_SIZE
  {
    ReadAt(data, ReadAt(data, p + RECORD_HEADER_SIZE, c.requestSize).1, c.infoSize).1
  }

  /** Where the cursor is left after an accepted record at p. */
  function AcceptedRecordEnd(data: seq<byte>, p: nat, c: RecordHeader, blockSize: nat): (r: nat)
    requires IsBlockSize(blockSize)
    ensures r >= p + blockSize
  {
    NextBlock(p, ReadEnd(data, p, c), blockSize)
  }

  /**
   * A cut-off header is an IOError with the cursor at the end; a header is
   * otherwise accepted exactly when __Accept holds, and a rejected one moves
   * the cursor one block.
   */
  lemma NextRecordCases(data: seq<byte>, p: nat, blockSize: nat)
    requires IsBlockSize(blockSize)
    ensures var r := NextRecordOf(data, p, blockSize);
      && (p + RECORD_HEADER_SIZE > |data| ==> r == (Err(IOError), Exhausted(data, p)))
      && (p + RECORD_HEADER_SIZE <= |data| ==> (r.0.Ok? <==> Accept(RecordHeaderAt(data, p), blockSize)))
      && (p + RECORD_HEADER_SIZE <= |data| && r.0.Err? ==> r.1 == p + blockSize)
      && (r.0.Ok? ==> r.0.value.header == RecordHeaderAt(data, p))
  {
  }

  /**
   * An accepted record leaves the cursor on a block boundary counted from
   * its start, less than a block past the last byte read unless that byte
   * ends a block.
   */
  lemma AcceptedRecordAligned(data: seq<byte>, p: nat, c: RecordHeader, blockSize: nat)
    requires IsBlockSize(blockSize)
    ensures var r, end := AcceptedRecordEnd(data, p, c, blockSize), ReadEnd(data, p, c);
      (r - p) % blockSize == 0 && end < r <= end + blockSize
  {
    NextBlockAligned(p, ReadEnd(data, p, c), blockSize);
  }

  // ---------------------------------------------------------------------
  // The cache file name and the block size

  predicate IsHexDigit(c: char)
  {
    '0' <= c <= '9' || 'a' <= c <= 'f' || 'A' <= c <= 'F'
  }

  predicate IsDecimalDigit(c: char)
  {
    '0' <= c <= '9'
  }

  /** pyparsing's default whitespace, skipped before every token. */
  predicate IsParserSpace(c: char)
  {
    c == ' ' || c == '\n' || c == '\t' || c == '\r'
  }

  function SkipSpace(s: string, i: nat): (r: nat)
    requires i <= |s|
    ensures i <= r <= |s| && (r == |s| || !IsParserSpace(s[r]))
    ensures forall k :: i <= k < r ==> IsParserSpace(s[k])
    decreases |s| - i
  {
    if i < |s| && IsParserSpace(s[i]) then SkipSpace(s, i + 1) else i
  }

  /**
   * Word(chars, exact=n) at i: n such characters.  exact= sets only the
   * minimum and maximum length, so a further such character after them is
   * left for the next token rather than rejected.
   */
  predicate TokenAt(s: string, i: nat, n: nat, hex: bool)
  {
    && i + n <= |s|
    && (forall k :: i <= k < i + n ==> (if hex then IsHexDigit(s[k]) else IsDecimalDigit(s[k])))
  }

  /**
   * ALTERNATIVE_CACHE_NAME.parseString: five hexadecimal digits, 'm', two
   * decimal digits, each token after optional whitespace; what follows
   * them is not looked at.
   */
  predicate AlternativeCacheName(name: string)
  {
    var a := SkipSpace(name, 0);
    && TokenAt(name, a, 5, true)
    && var b := SkipSpace(name, a + 5);
    && b < |name| && name[b] == 'm'
    && TokenAt(name, SkipSpace(name, b + 1), 2, false)
  }

  predicate CacheFileName(name: string)
  {
    PySlice(name, 0, 9) == "_CACHE_00" || AlternativeCacheName(name)
  }

  /**
   * parseString without parseAll looks at nothing past the three tokens:
   * "01ABCm02" and "01ABCm023" are both cache names, "01ABm02" (four hex
   * digits) is not.
   */
  lemma AlternativeNamePrefix(name: string, longer: string, short: string)
    requires name == "01ABCm02" && longer == name + "3" && short == "01ABm02"
    ensures AlternativeCacheName(name) && AlternativeCacheName(longer)
    ensures !AlternativeCacheName(short)
  {
    assert SkipSpace(name, 0) == 0 && SkipSpace(name, 5) == 5 && SkipSpace(name, 6) == 6;
    assert SkipSpace(longer, 0) == 0 && SkipSpace(longer, 5) == 5 && SkipSpace(longer, 6) == 6;
    assert SkipSpace(short, 0) == 0 && !IsHexDigit(short[4]);
  }

  /** The block size of the file whose first record has the given size. */
  function BlockSizeFor(recordSize: nat): (r: nat)
    ensures IsBlockSize(r)
    ensures r == 4096 <==> recordSize >= 4096
    ensures r == 256 <==> recordSize < 1024
  {
    if recordSize >= 4096 then 4096 else if recordSize >= 1024 then 1024 else 256
  }

  /** FIREFOX_CACHE_CONFIG */
  datatype Config = Config(blockSize: nat, firstRecordOffset: nat)

  /** The probe loop of __GetFirefoxConfig from cursor position p: the first record accepted with 256-byte blocks. */
  function ProbeFrom(data: seq<byte>, p: nat, toRead: nat): (r: Result<Config>)
    requires toRead <= |data|
    ensures r.Err? ==> r.exc == UnableToParseFile
    ensures r.Ok? ==> IsBlockSize(r.value.blockSize) && p <= r.value.firstRecordOffset < toRead
    decreases toRead - p
  {
    if p >= toRead then Err(UnableToParseFile)
    else
      var r := NextRecordOf(data, p, MIN_BLOCK_SIZE);
      if r.0.Ok? then Ok(Config(BlockSizeFor(RecordSize(r.0.value.header)), p))
      else ProbeFrom(data, r.1, toRead)
  }

  /** How much of the file the probe reads: min(file size, INITIAL_CACHE_FILE_SIZE). */
  function ProbeLimit(data: seq<byte>): (r: nat)
    ensures r <= |data| && r <= INITIAL_CACHE_FILE_SIZE
  {
    if |data| < INITIAL_CACHE_FILE_SIZE then |data| else INITIAL_CACHE_FILE_SIZE
  }

  /** __GetFirefoxConfig on the file entry with the given name and bytes. */
  function ConfigOf(name: string, data: seq<byte>): (r: Result<Config>)
    ensures r.Err? ==> r.exc == UnableToParseFile
    ensures !CacheFileName(name) ==> r.Err?
  {
    if !CacheFileName(name) then Err(UnableToParseFile) else ProbeFrom(data, 0, ProbeLimit(data))
  }

  /**
   * The configuration the probe finds starts with a record accepted with
   * 256-byte blocks inside the probed bytes, and its block size is that
   * record's size class.
   */
  lemma {:induction false} ProbeFindsAcceptedRecord(data: seq<byte>, p: nat, toRead: nat)
    requires toRead <= |data|
    requires ProbeFrom(data, p, toRead).Ok?
    ensures var c := ProbeFrom(data, p, toRead).value;
      && c.firstRecordOffset < toRead
      && NextRecordOf(data, c.firstRecordOffset, MIN_BLOCK_SIZE).0.Ok?
      && c.blockSize == BlockSizeFor(RecordSize(RecordHeaderAt(data, c.firstRecordOffset)))
    decreases toRead - p
  {
    var r := NextRecordOf(data, p, MIN_BLOCK_SIZE);
    NextRecordCases(data, p, MIN_BLOCK_SIZE);
    if r.0.Err? {
      ProbeFindsAcceptedRecord(data, r.1, toRead);
    }
  }

  // ---------------------------------------------------------------------
  // Parse

  /** The record loop of Parse from cursor position p: every accepted record's event, in file order. */
  function RecordsFrom(data: seq<byte>, p: nat, blockSize: nat): (r: seq<CacheEvent>)
    requires IsBlockSize(blockSize)
    decreases |data| - p
  {
    if p >= |data| then []
    else
      var n := NextRecordOf(data, p, blockSize);
      (if n.0.Ok? then [n.0.value] else []) + RecordsFrom(data, n.1, blockSize)
  }

  /** Parse: UnableToParseFile when no configuration is found, else the records from the first one. */
  function ParseOf(name: string, data: seq<byte>): (r: Yielded<CacheEvent>)
    ensures r.error.Some? <==> ConfigOf(name, data).Err?
    ensures r.error.Some? ==> r.events == [] && r.error.value == UnableToParseFile
  {
    match ConfigOf(name, data)
    case Err(e) => Yielded([], Some(e))
    case Ok(config) => Yielded(RecordsFrom(data, config.firstRecordOffset, config.blockSize), None)
  }

  /** Every event comes from a record the block size accepts. */
  lemma {:induction false} EventsAccepted(data: seq<byte>, p: nat, blockSize: nat)
    requires IsBlockSize(blockSize)
    ensures forall e :: e in RecordsFrom(data, p, blockSize) ==> Accept(e.header, blockSize)
    decreases |data| - p
  {
    if p < |data| {
      var n := NextRecordOf(data, p, blockSize);
      EventsAccepted(data, n.1, blockSize);
      NextRecordCases(data, p, blockSize);
    }
  }

  /** Every accepted record takes at least a block, so there are at most as many events as blocks left. */
  lemma {:induction false} AtMostOneEventPerBlock(data: seq<byte>, p: nat, blockSize: nat)
    requires IsBlockSize(blockSize)
    ensures |RecordsFrom(data, p, blockSize)| * blockSize < (if p < |data| then |data| - p else 0) + blockSize
    decreases |data| - p
  {
    if p < |data| {
      var n := NextRecordOf(data, p, blockSize);
      AtMostOneEventPerBlock(data, n.1, blockSize);
      var rest := RecordsFrom(data, n.1, blockSize);
      assert RecordsFrom(data, p, blockSize) == (if n.0.Ok? then [n.0.value] else []) + rest;
      if n.0.Ok? {
        assert n.1 >= p + blockSize;
        assert |RecordsFrom(data, p, blockSize)| * blockSize == blockSize + |rest| * blockSize;
      }
    }
  }

  /** A rejected candidate is skipped by exactly one block, yielding nothing. */
  lemma RejectedSkipsOneBlock(data: seq<byte>, p: nat, blockSize: nat)
    requires IsBlockSize(blockSize) && p + RECORD_HEADER_SIZE <= |data|
    requires !Accept(RecordHeaderAt(data, p), blockSize)
    ensures RecordsFrom(data, p, blockSize) == RecordsFrom(data, p + blockSize, blockSize)
  {
    NextRecordCases(data, p, blockSize);
  }

  // ---------------------------------------------------------------------
  // The parser on a file object

  /**
   * One step of the record loop: what __NextRecord returned at p, appended
   * to the events so far when it is an event, keeps them the prefix of the
   * events from first that the records from q complete.
   */
  lemma RecordsStep(data: seq<byte>, first: nat, blockSize: nat, events: seq<CacheEvent>,
                    p: nat, r: Result<CacheEvent>, q: nat)
    requires IsBlockSize(blockSize) && p < |data| && (r, q) == NextRecordOf(data, p, blockSize)
    requires events + RecordsFrom(data, p, blockSize) == RecordsFrom(data, first, blockSize)
    ensures r.Ok? ==> (events + [r.value]) + RecordsFrom(data, q, blockSize) == RecordsFrom(data, first, blockSize)
    ensures r.Err? ==> events + RecordsFrom(data, q, blockSize) == RecordsFrom(data, first, blockSize)
  {
    var rest := RecordsFrom(data, q, blockSize);
    if r.Ok? {
      assert RecordsFrom(data, p, blockSize) == [r.value] + rest;
      assert (events + [r.value]) + rest == events + ([r.value] + rest);
    } else {
      assert RecordsFrom(data, p, blockSize) == [] + rest == rest;
    }
  }

  /** NextRecordOf on an accepted header at p. */
  lemma NextRecordAccepted(data: seq<byte>, p: nat, blockSize: nat)
    requires IsBlockSize(blockSize) && p + RECORD_HEADER_SIZE <= |data|
    requires Accept(RecordHeaderAt(data, p), blockSize)
    ensures NextRecordOf(data, p, blockSize) == AcceptedRecordOf(data, p, RecordHeaderAt(data, p), blockSize)
  {
  }

  /** AcceptedRecordOf in terms of the two reads after the header. */
  lemma AcceptedRecordRead(data: seq<byte>, p: nat, blockSize: nat, c: RecordHeader,
                           request: seq<byte>, q1: nat, headers: seq<byte>, q2: nat)
    requires IsBlockSize(blockSize)
    requires (request, q1) == ReadAt(data, p + RECORD_HEADER_SIZE, c.requestSize)
    requires (headers, q2) == ReadAt(data, q1, c.infoSize)
    ensures ReadEnd(data, p, c) == q2
    ensures AcceptedRecordOf(data, p, c, blockSize) == (Ok(EventOf(c, request, headers)), NextBlock(p, q2, blockSize))
  {
  }

  /** NextRecordOf on a rejected header at p. */
  lemma NextRecordRejected(data: seq<byte>, p: nat, blockSize: nat)
    requires IsBlockSize(blockSize) && p + RECORD_HEADER_SIZE <= |data|
    requires !Accept(RecordHeaderAt(data, p), blockSize)
    ensures NextRecordOf(data, p, blockSize) == (Err(IOError), p + blockSize)
  {
  }

  /** RECORD_HEADER_STRUCT decoded from the 36 bytes read for it at offset. */
  method DecodeRecordHeader(f: FileObject, offset: nat, raw: seq<byte>) returns (c: RecordHeader)
    requires offset + RECORD_HEADER_SIZE <= |f.data| && raw == f.data[offset..offset + RECORD_HEADER_SIZE]
    ensures c == RecordHeaderAt(f.data, offset)
  {
    U16InRead(f.data, offset, RECORD_HEADER_SIZE, 0);
    U16InRead(f.data, offset, RECORD_HEADER_SIZE, 2);
    var words: seq<nat> := [];
    while |words| < 8
      invariant |words| <= 8 && words == Words(f.data, offset + 4, |words|)
    {
      U32InRead(f.data, offset, RECORD_HEADER_SIZE, 4 + 4 * |words|);
      words := words + [U32(raw, 4 + 4 * |words|)];
    }
    c := RecordHeader(U16(raw, 0), U16(raw, 2), words[0], words[1], words[2], words[3],
                      words[4], words[5], words[6], words[7]);
  }

  /** __NextRecord */
  method NextRecord(f: FileObject, blockSize: nat) returns (r: Result<CacheEvent>)
    requires IsBlockSize(blockSize)
    modifies f
    ensures (r, f.offset) == NextRecordOf(f.data, old(f.offset), blockSize)
  {
    var offset := f.offset;
    var raw := f.ReadField(RECORD_HEADER_SIZE);
    if raw.None? {
      return Err(IOError);
    }
    var c := DecodeRecordHeader(f, offset, raw.value);
    if !Accept(c, blockSize) {
      NextRecordRejected(f.data, offset, blockSize);
      f.Seek(f.offset + blockSize - RECORD_HEADER_SIZE);
      return Err(IOError);
    }
    NextRecordAccepted(f.data, offset, blockSize);
    r := ReadAcceptedRecord(f, offset, c, blockSize);
  }

  /** The rest of __NextRecord once the header c read at offset is accepted. */
  method ReadAcceptedRecord(f: FileObject, offset: nat, c: RecordHeader, blockSize: nat) returns (r: Result<CacheEvent>)
    requires IsBlockSize(blockSize) && f.offset == offset + RECORD_HEADER_SIZE
    modifies f
    ensures (r, f.offset) == AcceptedRecordOf(f.data, offset, c, blockSize)
  {
    var request := f.Read(c.requestSize);
    ghost var q1 := f.offset;
    var headers := f.Read(c.infoSize);
    ghost var q2 := f.offset;
    var remainder := (f.offset - offset) % blockSize;
    f.Seek(f.offset + blockSize - remainder);
    r := Ok(EventOf(c, request, headers));
    AcceptedRecordRead(f.data, offset, blockSize, c, request, q1, headers, q2);
  }

  /** __GetFirefoxConfig on a file entry with the given name and bytes. */
  method GetFirefoxConfig(name: string, data: seq<byte>) returns (r: Result<Config>)
    ensures r == ConfigOf(name, data)
  {
    if !CacheFileName(name) {
      return Err(UnableToParseFile);
    }
    var f := new FileObject(data);
    var toRead := if |data| < INITIAL_CACHE_FILE_SIZE then |data| else INITIAL_CACHE_FILE_SIZE;
    while f.offset < toRead
      invariant f.data == data
      invariant ProbeFrom(data, f.offset, toRead) == ProbeFrom(data, 0, toRead)
      decreases toRead - f.offset
    {
      var offset := f.offset;
      var record := NextRecord(f, MIN_BLOCK_SIZE);
      if record.Ok? {
        return Ok(Config(BlockSizeFor(RecordSize(record.value.header)), offset));
      }
    }
    r := Err(UnableToParseFile);
  }

  /** FirefoxCacheParser.Parse on a file entry with the given name and bytes. */
  method Parse(name: string, data: seq<byte>) returns (y: Yielded<CacheEvent>)
    ensures y == ParseOf(name, data)
  {
    var config := GetFirefoxConfig(name, data);
    if config.Err? {
      return Yielded([], Some(config.exc));
    }
    var blockSize := config.value.blockSize;
    var f := new FileObject(data);
    f.Seek(config.value.firstRecordOffset);
    var events: seq<CacheEvent> := [];
    while f.offset < |f.data|
      invariant f.data == data
      invariant events + RecordsFrom(data, f.offset, blockSize) == RecordsFrom(data, config.value.firstRecordOffset, blockSize)
      decreases |data| - f.offset
    {
      ghost var p := f.offset;
      var record := NextRecord(f, blockSize);
      RecordsStep(data, config.value.firstRecordOffset, blockSize, events, p, record, f.offset);
      if record.Ok? {
        events := events + [record.value];
      }
    }
    y := Yielded(events, None);
  }
}
