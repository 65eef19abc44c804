/**
 * The SkyDrive error log parser.  A header line ('######Logging started.')
 * carries the version and the system start time; every other entry starts
 * with an 'MM-DD-YY,hh:mm:ss.mmm' timestamp and holds module, source code
 * location, text and a detail that may run over several lines.
 */
module SkyDriveLogErr {
  import opened Common
  import opened Timelib

  const DATA_TYPE: string := "skydrive:error:line"
  const CRLF: string := "\r\n"

  /** The header's 'YYYY-MM-DD-hhmmss.mmm'; the named parts hh, mm, ss and ms may be missing from the results. */
  datatype HeaderTime = HeaderTime(
    year: int, month: int, day: int, hh: Option<int>, mm: Option<int>, ss: Option<int>, ms: Option<int>)

  /** A line's 'MM-DD-YY,hh:mm:ss.mmm'; month, day and year_short may be missing from the results. */
  datatype LineTime = LineTime(
    month: Option<int>, day: Option<int>, yearShort: Option<int>,
    hour: int, minute: int, second: int, msec: int)

  /** The two entry structures, 'logline' and 'header'; an absent text is "" as pyparsing gives it. */
  datatype Structure =
    | LogLine(timestamp: LineTime, moduleName: string, sourceCode: string, text: string, detail: string)
    | Header(logStart: string, verStr: string, verNum: string, hdrTimestamp: HeaderTime, ltStr: string, details: string)

  /** The base parser hands each structure over under the key it was declared with. */
  predicate KeyMatches(key: string, structure: Structure)
  {
    (key == "logline" ==> structure.LogLine?) && (key == "header" ==> structure.Header?)
  }

  /** A SkyDriveLogErrorEvent; its timestamp is always an ADDED_TIME; module and source code are None for a header. */
  datatype SkyDriveEvent = SkyDriveEvent(
    timestamp: int, moduleName: Option<string>, sourceCode: Option<string>, text: string, detail: string)

  function GetOr(v: Option<int>, default: int): int
  {
    if v.Some? then v.value else default
  }

  /** _GetTimestampFromHeader: missing parts of the time of day count as 0, milliseconds become microseconds. */
  function GetTimestampFromHeader(h: HeaderTime, fromTimeParts: TimePartsFn): int
  {
    fromTimeParts(TimeParts(h.year, h.month, h.day, GetOr(h.hh, 0), GetOr(h.mm, 0), GetOr(h.ss, 0),
      GetOr(h.ms, 0) * 1000, "UTC"))
  }

  /** The header time with every missing part of the time of day written out as 0. */
  function WithZeros(h: HeaderTime): HeaderTime
  {
    h.(hh := Some(GetOr(h.hh, 0)), mm := Some(GetOr(h.mm, 0)), ss := Some(GetOr(h.ss, 0)), ms := Some(GetOr(h.ms, 0)))
  }

  /**
   * A missing hour, minute, second or millisecond means the same as an
   * explicit 0; with all of them given the header time is that instant,
   * the milliseconds scaled to microseconds; with none, midnight.
   */
  lemma HeaderTimestamp(h: HeaderTime, fromTimeParts: TimePartsFn)
    ensures GetTimestampFromHeader(h, fromTimeParts) == GetTimestampFromHeader(WithZeros(h), fromTimeParts)
    ensures h.hh.Some? && h.mm.Some? && h.ss.Some? && h.ms.Some? ==>
      GetTimestampFromHeader(h, fromTimeParts) == fromTimeParts(TimeParts(h.year, h.month, h.day,
        h.hh.value, h.mm.value, h.ss.value, h.ms.value * MILLI_SECONDS_TO_MICRO_SECONDS, "UTC"))
    ensures h.hh.None? && h.mm.None? && h.ss.None? && h.ms.None? ==>
      GetTimestampFromHeader(h, fromTimeParts) == fromTimeParts(TimeParts(h.year, h.month, h.day, 0, 0, 0, 0, "UTC"))
  {
  }

  /**
   * _GetTimestampFromLine: 0 for a negative year or a zero (or missing)
   * month or day; otherwise the two-digit year is taken in the 2000s and
   * milliseconds become microseconds.
   */
  function GetTimestampFromLine(t: LineTime, fromTimeParts: TimePartsFn): (r: int)
  {
    var year := GetOr(t.yearShort, 0);
    var month := GetOr(t.month, 0);
    var day := GetOr(t.day, 0);
    if year < 0 || month == 0 || day == 0 then 0
    else fromTimeParts(TimeParts(year + 2000, month, day, t.hour, t.minute, t.second, t.msec * 1000, "UTC"))
  }

  lemma LineTimestampCases(t: LineTime, fromTimeParts: TimePartsFn)
    ensures ((t.yearShort.Some? && t.yearShort.value < 0) || t.month.None? || t.month == Some(0) ||
      t.day.None? || t.day == Some(0)) ==> GetTimestampFromLine(t, fromTimeParts) == 0
    ensures t.month.Some? && t.month.value != 0 && t.day.Some? && t.day.value != 0 && t.yearShort.Some? && t.yearShort.value >= 0 ==>
      GetTimestampFromLine(t, fromTimeParts) ==
        fromTimeParts(TimeParts(2000 + t.yearShort.value, t.month.value, t.day.value,
          t.hour, t.minute, t.second, t.msec * MILLI_SECONDS_TO_MICRO_SECONDS, "UTC"))
    ensures t.yearShort.None? && t.month.Some? && t.month.value != 0 && t.day.Some? && t.day.value != 0 ==>
      GetTimestampFromLine(t, fromTimeParts) ==
        fromTimeParts(TimeParts(2000, t.month.value, t.day.value, t.hour, t.minute, t.second, t.msec * 1000, "UTC"))
  {
  }

  /** _ParseLine: None for a zero timestamp, otherwise every CRLF in the detail becomes a space. */
  function ParseLine(structure: Structure, fromTimeParts: TimePartsFn): (r: Option<SkyDriveEvent>)
    requires structure.LogLine?
    ensures r.None? <==> GetTimestampFromLine(structure.timestamp, fromTimeParts) == 0
  {
    var timestamp := GetTimestampFromLine(structure.timestamp, fromTimeParts);
    if timestamp == 0 then None
    else Some(SkyDriveEvent(timestamp, Some(structure.moduleName), Some(structure.sourceCode),
      structure.text, Replace(structure.detail, CRLF, " ")))
  }

  /** _ParseHeader: None for a zero timestamp, otherwise text and detail are built from the header's parts. */
  function ParseHeader(structure: Structure, fromTimeParts: TimePartsFn): (r: Option<SkyDriveEvent>)
    requires structure.Header?
    ensures r.None? <==> GetTimestampFromHeader(structure.hdrTimestamp, fromTimeParts) == 0
  {
    var timestamp := GetTimestampFromHeader(structure.hdrTimestamp, fromTimeParts);
    if timestamp == 0 then None
    else Some(SkyDriveEvent(timestamp, None, None,
      structure.logStart + " " + structure.verStr + " " + structure.verNum,
      structure.ltStr + " " + structure.details))
  }

  /** ParseRecord after the correction described with ParseRecordAsWritten: every other key gives None. */
  function ParseRecord(key: string, structure: Structure, fromTimeParts: TimePartsFn): (r: Option<SkyDriveEvent>)
    requires KeyMatches(key, structure)
  {
    if key == "logline" then ParseLine(structure, fromTimeParts)
    else if key == "header" then ParseHeader(structure, fromTimeParts)
    else None
  }

  /** VerifyStructure after the same correction, on the result of matching the header grammar. */
  function VerifyStructure(parsed: Option<Structure>, fromTimeParts: TimePartsFn): (r: bool)
    requires parsed.Some? ==> parsed.value.Header?
    ensures r <==> parsed.Some? && GetTimestampFromHeader(parsed.value.hdrTimestamp, fromTimeParts) != 0
  {
    match parsed
      case None => false
      case Some(h) => GetTimestampFromHeader(h.hdrTimestamp, fromTimeParts) != 0
  }

  /**
   * ParseRecord as written: the debug message for a zero timestamp formats
   * a parse result with the integer code 'd', which raises ValueError before
   * the None can be returned.
   */
  function ParseRecordAsWritten(key: string, structure: Structure, fromTimeParts: TimePartsFn): (r: Result<Option<SkyDriveEvent>>)
    requires KeyMatches(key, structure)
  {
    if key == "logline" then
      if GetTimestampFromLine(structure.timestamp, fromTimeParts) == 0 then Err(ValueError)
      else Ok(ParseLine(structure, fromTimeParts))
    else if key == "header" then
      if GetTimestampFromHeader(structure.hdrTimestamp, fromTimeParts) == 0 then Err(ValueError)
      else Ok(ParseHeader(structure, fromTimeParts))
    else Ok(None)
  }

  /** VerifyStructure as written: a zero header timestamp raises ValueError in the same way. */
  function VerifyStructureAsWritten(parsed: Option<Structure>, fromTimeParts: TimePartsFn): (r: Result<bool>)
    requires parsed.Some? ==> parsed.value.Header?
  {
    match parsed
      case None => Ok(false)
      case Some(h) => if GetTimestampFromHeader(h.hdrTimestamp, fromTimeParts) == 0 then Err(ValueError) else Ok(true)
  }

  /** The two agree except where the written code raises: exactly on a zero timestamp. */
  lemma AsWrittenDiffers(key: string, structure: Structure, fromTimeParts: TimePartsFn)
    requires KeyMatches(key, structure)
    ensures ParseRecordAsWritten(key, structure, fromTimeParts).Err? <==>
      (key == "logline" || key == "header") && ParseRecord(key, structure, fromTimeParts).None?
    ensures ParseRecordAsWritten(key, structure, fromTimeParts).Ok? ==>
      ParseRecordAsWritten(key, structure, fromTimeParts).value == ParseRecord(key, structure, fromTimeParts)
  {
  }

  lemma AsWrittenVerifyDiffers(parsed: Option<Structure>, fromTimeParts: TimePartsFn)
    requires parsed.Some? ==> parsed.value.Header?
    ensures VerifyStructureAsWritten(parsed, fromTimeParts).Err? <==> parsed.Some? && !VerifyStructure(parsed, fromTimeParts)
    ensures VerifyStructureAsWritten(parsed, fromTimeParts).Ok? ==>
      VerifyStructureAsWritten(parsed, fromTimeParts).value == VerifyStructure(parsed, fromTimeParts)
  {
  }

  /** A line dated month 00 raises ValueError as written and yields nothing once corrected. */
  lemma MonthZeroLine(structure: Structure, fromTimeParts: TimePartsFn)
    requires structure.LogLine? && structure.timestamp.month == Some(0)
    ensures ParseRecordAsWritten("logline", structure, fromTimeParts) == Err(ValueError)
    ensures ParseRecord("logline", structure, fromTimeParts) == None
  {
  }

  // ---------------------------------------------------------------------
  // The detail text

  lemma NoCrlfAround(a: string, b: string)
    requires !Contains(a, CRLF) && !Contains(b, CRLF)
    ensures !Contains(a + " " + b, CRLF)
  {
    var s := a + " " + b;
    forall j | 0 <= j <= |s| - 2
      ensures !At(s, CRLF, j)
    {
      if j + 2 <= |a| {
        assert s[j..j + 2] == a[j..j + 2];
        assert !At(a, CRLF, j);
      } else if j > |a| {
        assert s[j..j + 2] == b[j - |a| - 1..j - |a| + 1];
        assert !At(b, CRLF, j - |a| - 1);
      } else if j == |a| {
        assert s[j..j + 2][0] == ' ';
      } else {
        assert s[j..j + 2][1] == ' ';
      }
    }
  }

  /** After the replacement the detail holds no CRLF. */
  lemma {:induction false} NoCrlfLeft(s: string)
    ensures !Contains(Replace(s, CRLF, " "), CRLF)
    decreases |s|
  {
    match Find(s, CRLF)
    case None =>
    case Some(k) =>
      NoEarlierOccurrence(s, CRLF, k);
      NoCrlfLeft(s[k + 2..]);
      NoCrlfAround(s[..k], Replace(s[k + 2..], CRLF, " "));
  }

  /** A detail without CRLF is kept as it is. */
  lemma DetailWithoutCrlf(s: string)
    requires !Contains(s, CRLF)
    ensures Replace(s, CRLF, " ") == s
  {
  }

  /** Replacing CRLF by a space is joining the CRLF-separated pieces with spaces. */
  lemma {:induction false} ReplaceIsJoin(s: string)
    ensures Replace(s, CRLF, " ") == Join(Split(s, CRLF), " ")
    decreases |s|
  {
    match Find(s, CRLF)
    case None =>
    case Some(k) =>
      ReplaceIsJoin(s[k + 2..]);
      var rest := Split(s[k + 2..], CRLF);
      assert Split(s, CRLF) == [s[..k]] + rest;
      assert |rest| >= 1;
      assert ([s[..k]] + rest)[1..] == rest;
  }

  /** The fields of an event from a dated log line and from a dated header. */
  lemma EventFields(structure: Structure, fromTimeParts: TimePartsFn)
    ensures structure.LogLine? && ParseLine(structure, fromTimeParts).Some? ==>
      var e := ParseLine(structure, fromTimeParts).value;
      e.timestamp == GetTimestampFromLine(structure.timestamp, fromTimeParts) &&
      e.moduleName == Some(structure.moduleName) && e.sourceCode == Some(structure.sourceCode) &&
      e.text == structure.text && !Contains(e.detail, CRLF)
    ensures structure.Header? && ParseHeader(structure, fromTimeParts).Some? ==>
      var e := ParseHeader(structure, fromTimeParts).value;
      e.timestamp == GetTimestampFromHeader(structure.hdrTimestamp, fromTimeParts) &&
      e.moduleName.None? && e.sourceCode.None? &&
      e.text == structure.logStart + " " + structure.verStr + " " + structure.verNum &&
      e.detail == structure.ltStr + " " + structure.details
  {
    if structure.LogLine? {
      NoCrlfLeft(structure.detail);
    }
  }

  /** Other keys give nothing. */
  lemma OtherKey(key: string, structure: Structure, fromTimeParts: TimePartsFn)
    requires KeyMatches(key, structure) && key != "logline" && key != "header"
    ensures ParseRecord(key, structure, fromTimeParts).None?
  {
  }
}
