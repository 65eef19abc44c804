/**
 * The Java cache IDX parser (plaso/parsers/java_idx.py).
 *
 * An IDX file starts with a 6-byte prefix: a busy flag, an incomplete
 * flag and a big-endian version. Version 6.02 keeps everything in one
 * section; versions 6.03 to 6.05 keep the dates in section one and the
 * URL, the IP address and the HTTP header count in section two, which
 * always starts at byte 128. The HTTP header fields follow as pairs of
 * strings with big-endian u16 lengths (Java's readUTF layout); the last
 * field named 'date' gives the download date.
 *
 * The specification functions take the file's bytes and a cursor
 * position; the methods read through a Common.FileObject and are proved
 * against them. FromTimeString is a parameter (Timelib.TimeStringFn).
 */
module JavaIdx {
  import opened Common
  import Timelib

  /** IDX_SHORT_STRUCT: busy u8, incomplete u8, idx_version u32. */
  const SHORT_SIZE: nat := 6
  const SUPPORTED_VERSIONS: seq<nat> := [602, 603, 604, 605]
  /** The fixed part of IDX_602_STRUCT, before its three strings. */
  const SECTION_602_FIXED_SIZE: nat := 23
  /** IDX_605_SECTION_ONE_STRUCT. */
  const SECTION_ONE_SIZE: nat := 42
  /** Section two of 6.03, 6.04 and 6.05 files starts here. */
  const SECTION_TWO_OFFSET: nat := 128
  const UNKNOWN: string := "Unknown"
  const DATE_FIELD: string := "date"

  // ---------------------------------------------------------------------
  // Structures

  datatype Magic = Magic(busy: nat, incomplete: nat, version: nat)

  /** The two dates every version stores before its strings. */
  datatype SectionOne = SectionOne(lastModified: nat, expiration: nat)

  /** Where the file came from, and how many HTTP header fields follow. */
  datatype SectionTwo = SectionTwo(url: string, ip: string, fieldCount: nat)

  datatype Sections = Sections(one: SectionOne, two: SectionTwo)

  /** The timestamp descriptions: 'File Hosted Date', 'File Expiration Date' and FILE_DOWNLOADED. */
  datatype TimeDesc = FileHostedDate | FileExpirationDate | FileDownloaded

  /** JavaIDXEvent */
  datatype JavaIdxEvent = JavaIdxEvent(timestamp: int, desc: TimeDesc, version: nat, url: string, ip: string)

  function MagicAt(data: seq<byte>): (r: Option<Magic>)
    ensures r.Some? <==> SHORT_SIZE <= |data|
  {
    if |data| < SHORT_SIZE then None else Some(Magic(data[0], data[1], U32(data, 2)))
  }

  /** The flags are 0, or 1 while a download is in progress, and the version is a supported one. */
  predicate ValidMagic(m: Magic)
  {
    m.busy <= 1 && m.incomplete <= 1 && m.version in SUPPORTED_VERSIONS
  }

  /** JAVA_READUTF_STRING at p: a big-endian u16 length and that many bytes. */
  function UtfAt(data: seq<byte>, p: nat): (r: (Option<seq<byte>>, nat))
    ensures r.0.Some? <==> p + 2 <= |data| && p + 2 + U16(data, p) <= |data|
    ensures r.0.Some? ==> r.0.value == data[p + 2..p + 2 + U16(data, p)] && r.1 == p + 2 + U16(data, p)
  {
    if p + 2 > |data| then (None, Exhausted(data, p))
    else
      var n := U16(data, p);
      if p + 2 + n > |data| then (None, |data|) else (Some(data[p + 2..p + 2 + n]), p + 2 + n)
  }

  /** k such strings one after the other from p. */
  function UtfsAt(data: seq<byte>, p: nat, k: nat): (r: (Option<seq<seq<byte>>>, nat))
    ensures r.0.Some? ==> |r.0.value| == k && r.1 >= p
    decreases k
  {
    if k == 0 then (Some([]), p)
    else
      var first := UtfsAt(data, p, k - 1);
      if first.0.None? then first
      else
        var s := UtfAt(data, first.1);
        if s.0.None? then (None, s.1) else (Some(first.0.value + [s.0.value]), s.1)
  }

  /** Once a string is cut off, reading more strings fails there too. */
  lemma {:induction false} UtfsStopAtFailure(data: seq<byte>, p: nat, i: nat, k: nat)
    requires i <= k && UtfsAt(data, p, i).0.None?
    ensures UtfsAt(data, p, k) == UtfsAt(data, p, i)
    decreases k
  {
    if i < k {
      UtfsStopAtFailure(data, p, i, k - 1);
    }
  }

  /** A UBInt32 at p, as construct reads it. */
  function CountAt(data: seq<byte>, p: nat): (r: (Option<nat>, nat))
    ensures r.0.Some? <==> p + 4 <= |data|
  {
    if p + 4 > |data| then (None, Exhausted(data, p)) else (Some(U32(data, p)), p + 4)
  }

  /**
   * IDX_602_STRUCT at p: the dates, then the version string, the URL and
   * the namespace, then the header count. 6.02 files keep no IP address.
   */
  function Section602At(data: seq<byte>, p: nat): (r: (Option<Sections>, nat))
    ensures r.0.Some? ==> r.0.value.two.ip == UNKNOWN
  {
    if p + SECTION_602_FIXED_SIZE > |data| then (None, Exhausted(data, p))
    else
      var strings := UtfsAt(data, p + SECTION_602_FIXED_SIZE, 3);
      if strings.0.None? then (None, strings.1)
      else
        var count := CountAt(data, strings.1);
        if count.0.None? then (None, count.1)
        else
          var one := SectionOne(U64(data, p + 7), U64(data, p + 15));
          (Some(Sections(one, SectionTwo(Chars(strings.0.value[1]), UNKNOWN, count.0.value))), count.1)
  }

  /** IDX_605_SECTION_ONE_STRUCT at p. */
  function SectionOneAt(data: seq<byte>, p: nat): (r: (Option<SectionOne>, nat))
    ensures r.0.Some? <==> p + SECTION_ONE_SIZE <= |data|
  {
    if p + SECTION_ONE_SIZE > |data| then (None, Exhausted(data, p))
    else (Some(SectionOne(U64(data, p + 5), U64(data, p + 13))), p + SECTION_ONE_SIZE)
  }

  /** IDX_605_SECTION_TWO_STRUCT at p: version, URL, namespec and IP address, then the header count. */
  function SectionTwoAt(data: seq<byte>, p: nat): (r: (Option<SectionTwo>, nat))
  {
    var strings := UtfsAt(data, p, 4);
    if strings.0.None? then (None, strings.1)
    else
      var count := CountAt(data, strings.1);
      if count.0.None? then (None, count.1)
      else (Some(SectionTwo(Chars(strings.0.value[1]), Chars(strings.0.value[3]), count.0.value)), count.1)
  }

  /**
   * Where 6.03, 6.04 and 6.05 files put section one: the two unused bytes
   * of 6.03 and 6.04 are read past first.
   */
  function SectionOneStart(data: seq<byte>, version: nat): (r: nat)
    ensures r >= SHORT_SIZE
  {
    if version == 603 || version == 604 then ReadAt(data, SHORT_SIZE, 2).1 else SHORT_SIZE
  }

  /**
   * The version-specific sections after the prefix, and the cursor after
   * them: section two is read at byte 128 only when the file is longer
   * than that, and a shorter file has an unknown URL and IP address and
   * no header fields.
   */
  function SectionsOf(data: seq<byte>, version: nat): (r: (Option<Sections>, nat))
  {
    if version == 602 then Section602At(data, SHORT_SIZE)
    else
      var one := SectionOneAt(data, SectionOneStart(data, version));
      if one.0.None? then (None, one.1)
      else if |data| > SECTION_TWO_OFFSET then
        var two := SectionTwoAt(data, SECTION_TWO_OFFSET);
        if two.0.None? then (None, two.1) else (Some(Sections(one.0.value, two.0.value)), two.1)
      else (Some(Sections(one.0.value, SectionTwo(UNKNOWN, UNKNOWN, 0))), one.1)
  }

  // ---------------------------------------------------------------------
  // HTTP header fields

  /** download_date after a field/value pair: FromTimeString of the value when the field is 'date'. */
  function DateAfter(pair: seq<seq<byte>>, date: Option<int>, fromTimeString: Timelib.TimeStringFn): Option<int>
    requires |pair| == 2
  {
    if Chars(pair[0]) == DATE_FIELD then Some(fromTimeString(Chars(pair[1]))) else date
  }

  /**
   * The header loop from p with n fields left and download_date so far:
   * the date it ends with, or FieldError when a string is cut off.
   */
  function HeadersFrom(data: seq<byte>, p: nat, n: nat, date: Option<int>, fromTimeString: Timelib.TimeStringFn): (r: Result<Option<int>>)
    ensures r.Err? ==> r.exc == FieldError
    decreases n
  {
    if n == 0 then Ok(date)
    else
      var pair := UtfsAt(data, p, 2);
      if pair.0.None? then Err(FieldError)
      else HeadersFrom(data, pair.1, n - 1, DateAfter(pair.0.value, date, fromTimeString), fromTimeString)
  }

  /** The n field/value pairs from p, when all of them are there. */
  function PairsAt(data: seq<byte>, p: nat, n: nat): (r: Option<seq<seq<seq<byte>>>>)
    ensures r.Some? ==> |r.value| == n && forall i :: 0 <= i < n ==> |r.value[i]| == 2
    decreases n
  {
    if n == 0 then Some([])
    else
      var pair := UtfsAt(data, p, 2);
      if pair.0.None? then None
      else
        var rest := PairsAt(data, pair.1, n - 1);
        if rest.None? then None else Some([pair.0.value] + rest.value)
  }

  /** The conversion of the value of the last field named 'date', if there is one. */
  function LastDate(pairs: seq<seq<seq<byte>>>, fromTimeString: Timelib.TimeStringFn): (r: Option<int>)
    requires forall i :: 0 <= i < |pairs| ==> |pairs[i]| == 2
    ensures r.Some? <==> exists i :: 0 <= i < |pairs| && Chars(pairs[i][0]) == DATE_FIELD
  {
    if pairs == [] then None
    else
      var last := pairs[|pairs| - 1];
      if Chars(last[0]) == DATE_FIELD then Some(fromTimeString(Chars(last[1])))
      else
        var r := LastDate(pairs[..|pairs| - 1], fromTimeString);
        assert forall i :: 0 <= i < |pairs| - 1 ==> pairs[..|pairs| - 1][i] == pairs[i];
        r
  }

  /** The last date of x followed by more pairs: the later pairs' if they have one, else x's. */
  lemma {:induction false} LastDateOfCons(x: seq<seq<byte>>, rest: seq<seq<seq<byte>>>, fromTimeString: Timelib.TimeStringFn)
    requires |x| == 2 && forall i :: 0 <= i < |rest| ==> |rest[i]| == 2
    ensures forall i :: 0 <= i < |[x] + rest| ==> |([x] + rest)[i]| == 2
    ensures LastDate([x] + rest, fromTimeString) ==
      if LastDate(rest, fromTimeString).Some? then LastDate(rest, fromTimeString) else DateAfter(x, None, fromTimeString)
    decreases |rest|
  {
    var all := [x] + rest;
    assert forall i :: 0 <= i < |all| ==> |all[i]| == 2;
    if rest != [] {
      var init := rest[..|rest| - 1];
      assert all[..|all| - 1] == [x] + init;
      assert all[|all| - 1] == rest[|rest| - 1];
      LastDateOfCons(x, init, fromTimeString);
    }
  }

  /**
   * The header loop finds the last 'date' field of the pairs it reads,
   * keeping the date it started with when there is none, and fails
   * exactly when a pair is cut off.
   */
  lemma {:induction false} HeadersAreLastDate(data: seq<byte>, p: nat, n: nat, date: Option<int>, fromTimeString: Timelib.TimeStringFn)
    ensures PairsAt(data, p, n).None? <==> HeadersFrom(data, p, n, date, fromTimeString).Err?
    ensures PairsAt(data, p, n).Some? ==>
      var last := LastDate(PairsAt(data, p, n).value, fromTimeString);
      HeadersFrom(data, p, n, date, fromTimeString) == Ok(if last.Some? then last else date)
    decreases n
  {
    if n > 0 {
      var pair := UtfsAt(data, p, 2);
      if pair.0.Some? {
        var next := DateAfter(pair.0.value, date, fromTimeString);
        HeadersAreLastDate(data, pair.1, n - 1, next, fromTimeString);
        var rest := PairsAt(data, pair.1, n - 1);
        if rest.Some? {
          assert PairsAt(data, p, n) == Some([pair.0.value] + rest.value);
          LastDateOfCons(pair.0.value, rest.value, fromTimeString);
        } else {
          assert PairsAt(data, p, n).None?;
        }
      }
    }
  }

  // ---------------------------------------------------------------------
  // Parse

  /**
   * The events of a file whose sections and download date were read: the
   * hosted date always, the expiration date when it is not 0, and the
   * download date when there is one that is not 0.
   */
  function EventsOf(version: nat, s: Sections, download: Option<int>): (r: seq<JavaIdxEvent>)
    ensures 1 <= |r| <= 3
  {
    var hosted := JavaIdxEvent(Timelib.FromJavaTime(s.one.lastModified), FileHostedDate, version, s.two.url, s.two.ip);
    var expiration := JavaIdxEvent(Timelib.FromJavaTime(s.one.expiration), FileExpirationDate, version, s.two.url, s.two.ip);
    [hosted]
      + (if s.one.expiration != 0 then [expiration] else [])
      + (if download.Some? && download.value != 0 then [JavaIdxEvent(download.value, FileDownloaded, version, s.two.url, s.two.ip)] else [])
  }

  /** JavaIDXParser.Parse on a file with the given bytes. */
  function ParseOf(data: seq<byte>, fromTimeString: Timelib.TimeStringFn): (r: Yielded<JavaIdxEvent>)
    ensures r.error.Some? <==> r.events == []
  {
    var magic := MagicAt(data);
    if magic.None? || !ValidMagic(magic.value) then Yielded([], Some(UnableToParseFile))
    else ParseBody(data, magic.value.version, fromTimeString)
  }

  /** Parse after an accepted prefix: the sections, the header fields, the URL and IP check, the events. */
  function ParseBody(data: seq<byte>, version: nat, fromTimeString: Timelib.TimeStringFn): (r: Yielded<JavaIdxEvent>)
    ensures r.error.Some? <==> r.events == []
  {
    var sections := SectionsOf(data, version);
    if sections.0.None? then Yielded([], Some(FieldError))
    else
      var s := sections.0.value;
      var download := HeadersFrom(data, sections.1, s.two.fieldCount, None, fromTimeString);
      if download.Err? then Yielded([], Some(FieldError))
      else if s.two.url == "" || s.two.ip == "" then Yielded([], Some(UnableToParseFile))
      else Yielded(EventsOf(version, s, download.value), None)
  }

  /**
   * A file is rejected as UnableToParseFile before anything else is read
   * when its prefix is cut off, a flag is above 1 or the version is not
   * 602 to 605; a file that yields events passed all three checks.
   */
  lemma VersionDispatch(data: seq<byte>, fromTimeString: Timelib.TimeStringFn)
    ensures MagicAt(data).None? ==> ParseOf(data, fromTimeString) == Yielded([], Some(UnableToParseFile))
    ensures MagicAt(data).Some? && !ValidMagic(MagicAt(data).value) ==>
      ParseOf(data, fromTimeString) == Yielded([], Some(UnableToParseFile))
    ensures ParseOf(data, fromTimeString).error.None? ==>
      MagicAt(data).Some? && ValidMagic(MagicAt(data).value)
  {
  }

  /**
   * The events of a file come in the order hosted, expiration, download;
   * all carry the file's version, URL and IP address, which are not
   * empty, and the hosted date is the section's last-modified date.
   */
  lemma EventsShape(version: nat, s: Sections, download: Option<int>)
    ensures var r := EventsOf(version, s, download);
      && r[0].desc == FileHostedDate && r[0].timestamp == Timelib.FromJavaTime(s.one.lastModified)
      && (|r| >= 2 <==> s.one.expiration != 0 || (download.Some? && download.value != 0))
      && (forall e :: e in r ==> e.version == version && e.url == s.two.url && e.ip == s.two.ip)
      && (r[|r| - 1].desc == FileDownloaded <==> download.Some? && download.value != 0)
      && (r[|r| - 1].desc == FileDownloaded ==> r[|r| - 1].timestamp == download.value)
      && (exists e :: e in r && e.desc == FileExpirationDate) == (s.one.expiration != 0)
  {
    var r := EventsOf(version, s, download);
    if s.one.expiration != 0 {
      assert r[1].desc == FileExpirationDate;
    }
  }

  /** A parsed file has a URL and an IP address. */
  lemma ParsedHasOrigin(data: seq<byte>, fromTimeString: Timelib.TimeStringFn)
    ensures var r := ParseOf(data, fromTimeString);
      forall e :: e in r.events ==> e.url != "" && e.ip != ""
  {
    var r := ParseOf(data, fromTimeString);
    if r.error.None? {
      var magic := MagicAt(data).value;
      var s := SectionsOf(data, magic.version).0.value;
      var download := HeadersFrom(data, SectionsOf(data, magic.version).1, s.two.fieldCount, None, fromTimeString);
      EventsShape(magic.version, s, download.value);
    }
  }

  /**
   * A 6.02 file has IP 'Unknown'; a 6.03 to 6.05 file of at most 128 bytes
   * has URL and IP 'Unknown' and no download event, section two not being
   * read.
   */
  lemma UnknownOrigins(data: seq<byte>, fromTimeString: Timelib.TimeStringFn)
    requires MagicAt(data).Some?
    ensures var r := ParseOf(data, fromTimeString);
      && (MagicAt(data).value.version == 602 ==> forall e :: e in r.events ==> e.ip == UNKNOWN)
      && (MagicAt(data).value.version in [603, 604, 605] && |data| <= SECTION_TWO_OFFSET ==>
            forall e :: e in r.events ==> e.url == UNKNOWN && e.ip == UNKNOWN && e.desc != FileDownloaded)
  {
    var r := ParseOf(data, fromTimeString);
    var magic := MagicAt(data).value;
    if r.error.None? {
      var sections := SectionsOf(data, magic.version);
      var s := sections.0.value;
      var download := HeadersFrom(data, sections.1, s.two.fieldCount, None, fromTimeString);
      EventsShape(magic.version, s, download.value);
      if magic.version in [603, 604, 605] && |data| <= SECTION_TWO_OFFSET {
        assert s.two.fieldCount == 0 && download.value.None?;
        var events := EventsOf(magic.version, s, download.value);
        assert forall e :: e in events ==> e.desc != FileDownloaded;
      }
    }
  }

  // ---------------------------------------------------------------------
  // The parser on a file object

  /** JAVA_READUTF_STRING.parse_stream */
  method ReadUtf(f: FileObject) returns (s: Option<seq<byte>>)
    modifies f
    ensures (s, f.offset) == UtfAt(f.data, old(f.offset))
  {
    var n := f.ReadU16();
    if n.None? {
      return None;
    }
    var b := f.ReadField(n.value);
    if b.None? {
      return None;
    }
    s := b;
  }

  /** k strings in a row, as the PascalString fields of a construct structure. */
  method ReadUtfs(f: FileObject, k: nat) returns (r: Option<seq<seq<byte>>>)
    modifies f
    ensures (r, f.offset) == UtfsAt(f.data, old(f.offset), k)
  {
    ghost var p := f.offset;
    var strings: seq<seq<byte>> := [];
    var i := 0;
    while i < k
      invariant i <= k && (Some(strings), f.offset) == UtfsAt(f.data, p, i)
    {
      var s := ReadUtf(f);
      if s.None? {
        UtfsStopAtFailure(f.data, p, i + 1, k);
        return None;
      }
      strings := strings + [s.value];
      i := i + 1;
    }
    r := Some(strings);
  }

  /** IDX_602_STRUCT.parse_stream */
  method ReadSection602(f: FileObject) returns (r: Option<Sections>)
    modifies f
    ensures (r, f.offset) == Section602At(f.data, old(f.offset))
  {
    var p := f.offset;
    var raw := f.ReadField(SECTION_602_FIXED_SIZE);
    if raw.None? {
      return None;
    }
    U64InRead(f.data, p, SECTION_602_FIXED_SIZE, 7);
    U64InRead(f.data, p, SECTION_602_FIXED_SIZE, 15);
    var one := SectionOne(U64(raw.value, 7), U64(raw.value, 15));
    var strings := ReadUtfs(f, 3);
    if strings.None? {
      return None;
    }
    var count := f.ReadU32();
    if count.None? {
      return None;
    }
    r := Some(Sections(one, SectionTwo(Chars(strings.value[1]), UNKNOWN, count.value)));
  }

  /** IDX_605_SECTION_ONE_STRUCT.parse_stream */
  method ReadSectionOne(f: FileObject) returns (r: Option<SectionOne>)
    modifies f
    ensures (r, f.offset) == SectionOneAt(f.data, old(f.offset))
  {
    var p := f.offset;
    var raw := f.ReadField(SECTION_ONE_SIZE);
    if raw.None? {
      return None;
    }
    U64InRead(f.data, p, SECTION_ONE_SIZE, 5);
    U64InRead(f.data, p, SECTION_ONE_SIZE, 13);
    r := Some(SectionOne(U64(raw.value, 5), U64(raw.value, 13)));
  }

  /** IDX_605_SECTION_TWO_STRUCT.parse_stream */
  method ReadSectionTwo(f: FileObject) returns (r: Option<SectionTwo>)
    modifies f
    ensures (r, f.offset) == SectionTwoAt(f.data, old(f.offset))
  {
    var strings := ReadUtfs(f, 4);
    if strings.None? {
      return None;
    }
    var count := f.ReadU32();
    if count.None? {
      return None;
    }
    r := Some(SectionTwo(Chars(strings.value[1]), Chars(strings.value[3]), count.value));
  }

  /** The version dispatch of Parse, from just after the prefix. */
  method ReadSections(f: FileObject, version: nat) returns (r: Option<Sections>)
    requires f.offset == SHORT_SIZE
    modifies f
    ensures (r, f.offset) == SectionsOf(f.data, version)
  {
    if version == 602 {
      r := ReadSection602(f);
      return;
    }
    if version == 603 || version == 604 {
      var _ := f.Read(2);
    }
    var one := ReadSectionOne(f);
    if one.None? {
      return None;
    }
    if |f.data| > SECTION_TWO_OFFSET {
      f.Seek(SECTION_TWO_OFFSET);
      var two := ReadSectionTwo(f);
      if two.None? {
        return None;
      }
      r := Some(Sections(one.value, two.value));
    } else {
      r := Some(Sections(one.value, SectionTwo(UNKNOWN, UNKNOWN, 0)));
    }
  }

  /** The loop over the HTTP header fields, updating download_date. */
  method ReadHeaders(f: FileObject, count: nat, fromTimeString: Timelib.TimeStringFn) returns (r: Result<Option<int>>)
    modifies f
    ensures r == HeadersFrom(f.data, old(f.offset), count, None, fromTimeString)
  {
    ghost var p := f.offset;
    var downloadDate: Option<int> := None;
    var field := 0;
    while field < count
      invariant field <= count
      invariant HeadersFrom(f.data, f.offset, count - field, downloadDate, fromTimeString)
             == HeadersFrom(f.data, p, count, None, fromTimeString)
    {
      var pair := ReadUtfs(f, 2);
      if pair.None? {
        return Err(FieldError);
      }
      if Chars(pair.value[0]) == DATE_FIELD {
        downloadDate := Some(fromTimeString(Chars(pair.value[1])));
      }
      field := field + 1;
    }
    r := Ok(downloadDate);
  }

  /** ParseOf in terms of the prefix read. */
  lemma ParseOfMagic(data: seq<byte>, fromTimeString: Timelib.TimeStringFn, m: Magic)
    requires MagicAt(data) == Some(m)
    ensures ParseOf(data, fromTimeString) ==
      if ValidMagic(m) then ParseBody(data, m.version, fromTimeString) else Yielded([], Some(UnableToParseFile))
  {
  }

  /** JavaIDXParser.Parse on a file with the given bytes. */
  method Parse(data: seq<byte>, fromTimeString: Timelib.TimeStringFn) returns (y: Yielded<JavaIdxEvent>)
    ensures y == ParseOf(data, fromTimeString)
  {
    var f := new FileObject(data);
    var raw := f.ReadField(SHORT_SIZE);
    if raw.None? {
      return Yielded([], Some(UnableToParseFile));
    }
    U32InRead(data, 0, SHORT_SIZE, 2);
    var magic := Magic(raw.value[0], raw.value[1], U32(raw.value, 2));
    ParseOfMagic(data, fromTimeString, magic);
    if magic.busy > 1 || magic.incomplete > 1 {
      return Yielded([], Some(UnableToParseFile));
    }
    if magic.version !in SUPPORTED_VERSIONS {
      return Yielded([], Some(UnableToParseFile));
    }
    y := ParseAfterMagic(f, magic.version, fromTimeString);
  }

  /** Parse from just after an accepted prefix. */
  method ParseAfterMagic(f: FileObject, version: nat, fromTimeString: Timelib.TimeStringFn) returns (y: Yielded<JavaIdxEvent>)
    requires f.offset == SHORT_SIZE
    modifies f
    ensures y == ParseBody(f.data, version, fromTimeString)
  {
    var sections := ReadSections(f, version);
    if sections.None? {
      return Yielded([], Some(FieldError));
    }
    var s := sections.value;
    var download := ReadHeaders(f, s.two.fieldCount, fromTimeString);
    if download.Err? {
      return Yielded([], Some(FieldError));
    }
    if s.two.url == "" || s.two.ip == "" {
      return Yielded([], Some(UnableToParseFile));
    }
    y := Yielded(EventsOf(version, s, download.value), None);
  }
}
