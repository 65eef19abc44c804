/**
 * The ASL securityd log parser.  A log line gives month, day and time, the
 * sender and its pid, level, facility, an optional securityd function name
 * between braces, an optional caller and a message; a repeated line says
 * how many times the previous message recurred.  The parser keeps the
 * working year, the last month seen and the last log line across calls.
 */
module MacSecuritydLog {
  import opened Common
  import opened Timelib
  import opened YearTracking

  const DATA_TYPE: string := "mac:asl:securityd:line"
  const UNKNOWN: string := "unknown"
  const VERIFY_YEAR: int := 2012

  /**
   * The fields of a log line after the time.  The optional security_api and
   * caller are "" when absent, which is what pyparsing answers for a name
   * that did not match.
   */
  datatype LogFields = LogFields(
    sender: string, senderPid: int, level: string, facility: string,
    securityApi: string, caller: string, message: string)

  /** The two line structures: 'logline' and 'repeated'. */
  datatype Structure =
    | LogLine(month: string, day: int, time: Clock, fields: LogFields)
    | Repeated(month: string, day: int, time: Clock, times: nat)

  /** The base parser hands each structure over under the key it was declared with. */
  predicate KeyMatches(key: string, structure: Structure)
  {
    (key == "logline" ==> structure.LogLine?) && (key == "repeated" ==> structure.Repeated?)
  }

  /** A MacSecuritydLogEvent; its timestamp is always an ADDED_TIME. */
  datatype SecuritydEvent = SecuritydEvent(
    timestamp: int, level: string, senderPid: int, facility: string, sender: string,
    securityApi: string, caller: string, message: string)

  /** What the parser is given besides the lines: the year sources, the zone and FromTimeParts. */
  datatype Env = Env(src: YearSource, zone: string, fromTimeParts: TimePartsFn)

  /** The state kept across lines: _year_use, _last_month and previous_structure. */
  datatype ParserState = ParserState(year: YearState, previous: Option<LogFields>)

  /** VerifyStructure on the result of matching the log-line grammar (None when it does not match). */
  function VerifyStructure(parsed: Option<Structure>, fromTimeParts: TimePartsFn): (r: bool)
    ensures r <==> (parsed.Some? && MonthOf(parsed.value.month).Some? &&
      fromTimeParts(TimeParts(VERIFY_YEAR, MonthOf(parsed.value.month).value, parsed.value.day,
        parsed.value.time.hours, parsed.value.time.minutes, parsed.value.time.seconds, 0, "UTC")) != 0)
  {
    match parsed
      case None => false
      case Some(line) =>
        var month := MonthOf(line.month);
        if Falsy(month) then false
        else
          var t := GetTimestamp(line.day, month, VERIFY_YEAR, line.time, fromTimeParts);
          t.Ok? && t.value != 0
  }

  /** The message of a repeated line: 'Repeated <times> times: ' and the remembered message. */
  function RepeatedMessage(times: nat, message: string): string
  {
    "Repeated " + NatToStr(times) + " times: " + message
  }

  /** The event for a line's timestamp, the fields it takes its data from, and its message. */
  function EventOf(timestamp: int, f: LogFields, message: string): (e: SecuritydEvent)
  {
    var caller := Strip(f.caller);
    SecuritydEvent(
      timestamp, f.level, f.senderPid, f.facility, Strip(f.sender),
      if f.securityApi == "" then UNKNOWN else f.securityApi,
      if caller == "" then UNKNOWN else caller,
      message)
  }

  /** The month of a structure and its timestamp in the year the state advances to. */
  function LineTimestamp(s: ParserState, structure: Structure, env: Env): (r: Result<int>)
  {
    var month := MonthOf(structure.month);
    GetTimestamp(structure.day, month, Advance(s.year, month, env.src, env.zone).yearUse, structure.time, env.fromTimeParts)
  }

  /** _ParseLogLine: the new state and the event (None for a dropped line) or the exception. */
  function ParseLogLine(s: ParserState, structure: Structure, key: string, env: Env): (r: (ParserState, Result<Option<SecuritydEvent>>))
    requires KeyMatches(key, structure) && (key == "logline" || key == "repeated")
  {
    var month := MonthOf(structure.month);
    var year := Advance(s.year, month, env.src, env.zone);
    var advanced := s.(year := year);
    match LineTimestamp(s, structure, env)
      case Err(e) => (advanced, Err(e))
      case Ok(t) =>
        if t == 0 then (advanced, Ok(None))
        else
          var committed := advanced.(year := year.(lastMonth := month));
          if key == "logline" then
            (committed.(previous := Some(structure.fields)), Ok(Some(EventOf(t, structure.fields, structure.fields.message))))
          else match s.previous
            case None => (committed, Err(AttributeError))
            case Some(p) => (committed, Ok(Some(EventOf(t, p, RepeatedMessage(structure.times, p.message)))))
  }

  /** ParseRecord: any key other than 'logline' and 'repeated' yields nothing and changes nothing. */
  function ParseRecordOf(s: ParserState, key: string, structure: Structure, env: Env): (r: (ParserState, Result<Option<SecuritydEvent>>))
    requires KeyMatches(key, structure)
  {
    if key == "repeated" || key == "logline" then ParseLogLine(s, structure, key, env)
    else (s, Ok(None))
  }

  /** The parser object. */
  class MacSecuritydLogParser {
    var yearUse: int
    var lastMonth: Option<int>
    var previousStructure: Option<LogFields>
    const env: Env

    function State(): ParserState
      reads this
    {
      ParserState(YearState(yearUse, lastMonth), previousStructure)
    }

    /** The year from the preprocessing object (0 when it has none); no month and no line seen yet. */
    constructor(preYear: int, env: Env)
      ensures State() == ParserState(YearState(preYear, None), None) && this.env == env
    {
      yearUse := preYear;
      lastMonth := None;
      previousStructure := None;
      this.env := env;
    }

    method ParseRecord(key: string, structure: Structure) returns (r: Result<Option<SecuritydEvent>>)
      requires KeyMatches(key, structure)
      modifies this
      ensures (State(), r) == ParseRecordOf(old(State()), key, structure, env)
    {
      if key != "repeated" && key != "logline" {
        return Ok(None);
      }
      ghost var s0 := State();
      if yearUse == 0 {
        yearUse := GetYear(env.src, env.zone);
        if yearUse == 0 {
          yearUse := env.src.currentYear;
        }
      }
      var month := MonthOf(structure.month);
      if Falsy(lastMonth) {
        lastMonth := month;
      }
      if Py2Less(month, lastMonth) {
        yearUse := yearUse + 1;
      }
      assert YearState(yearUse, lastMonth) == Advance(s0.year, month, env.src, env.zone);
      var timestamp := GetTimestamp(structure.day, month, yearUse, structure.time, env.fromTimeParts);
      assert timestamp == LineTimestamp(s0, structure, env);
      if timestamp.Err? {
        return Err(timestamp.exc);
      }
      if timestamp.value == 0 {
        return Ok(None);
      }
      lastMonth := month;
      var fields: LogFields;
      var message: string;
      if key == "logline" {
        previousStructure := Some(structure.fields);
        fields, message := structure.fields, structure.fields.message;
      } else {
        if previousStructure.None? {
          return Err(AttributeError);
        }
        fields := previousStructure.value;
        message := RepeatedMessage(structure.times, fields.message);
      }
      r := Ok(Some(EventOf(timestamp.value, fields, message)));
    }
  }

  // ---------------------------------------------------------------------
  // Properties

  /** A line whose month is below the remembered one moves the year on, whether or not the line is then dropped. */
  lemma GapPersists(s: ParserState, key: string, structure: Structure, env: Env, last: int)
    requires KeyMatches(key, structure) && (key == "logline" || key == "repeated")
    requires s.year.lastMonth == Some(last) && last != 0
    requires MonthOf(structure.month).Some? && MonthOf(structure.month).value < last
    ensures ParseRecordOf(s, key, structure, env).0.year.yearUse == StartYear(s.year.yearUse, env.src, env.zone) + 1
  {
    AdvanceGap(s.year, MonthOf(structure.month).value, last, env.src, env.zone);
  }

  /**
   * The remembered month becomes the line's month only once the line has a
   * non-zero timestamp; before that it is only filled in when there was none.
   */
  lemma LastMonthUpdate(s: ParserState, key: string, structure: Structure, env: Env)
    requires KeyMatches(key, structure) && (key == "logline" || key == "repeated")
    ensures var t := LineTimestamp(s, structure, env);
      var last := ParseRecordOf(s, key, structure, env).0.year.lastMonth;
      (t.Ok? && t.value != 0 ==> last == MonthOf(structure.month)) &&
      (!(t.Ok? && t.value != 0) ==> last == if Falsy(s.year.lastMonth) then MonthOf(structure.month) else s.year.lastMonth)
  {
  }

  /** A dropped line (timestamp 0) yields nothing and leaves the previous log line as it was. */
  lemma DroppedLine(s: ParserState, key: string, structure: Structure, env: Env)
    requires KeyMatches(key, structure) && (key == "logline" || key == "repeated")
    requires LineTimestamp(s, structure, env) == Ok(0)
    ensures ParseRecordOf(s, key, structure, env).1 == Ok(None)
    ensures ParseRecordOf(s, key, structure, env).0.previous == s.previous
  {
  }

  /** A dated log line becomes the previous structure and gives its own message. */
  lemma LogLineRemembered(s: ParserState, structure: Structure, env: Env)
    requires structure.LogLine?
    requires LineTimestamp(s, structure, env).Ok? && LineTimestamp(s, structure, env).value != 0
    ensures var (s', r) := ParseRecordOf(s, "logline", structure, env);
      s'.previous == Some(structure.fields) &&
      r == Ok(Some(EventOf(LineTimestamp(s, structure, env).value, structure.fields, structure.fields.message)))
  {
  }

  /**
   * A dated repeated line takes everything but its timestamp from the
   * previous log line, with the message 'Repeated N times: <message>', and
   * keeps that log line as the previous one; with no previous log line it
   * raises AttributeError.
   */
  lemma RepeatedReuses(s: ParserState, structure: Structure, env: Env)
    requires structure.Repeated?
    requires LineTimestamp(s, structure, env).Ok? && LineTimestamp(s, structure, env).value != 0
    ensures var (s', r) := ParseRecordOf(s, "repeated", structure, env);
      s'.previous == s.previous &&
      (s.previous.None? ==> r == Err(AttributeError)) &&
      (s.previous.Some? ==> r == Ok(Some(EventOf(LineTimestamp(s, structure, env).value, s.previous.value,
        "Repeated " + NatToStr(structure.times) + " times: " + s.previous.value.message))))
  {
  }

  /** An unknown month raises TypeError from datetime, after the year bookkeeping has been done. */
  lemma UnknownMonthRaises(s: ParserState, key: string, structure: Structure, env: Env)
    requires KeyMatches(key, structure) && (key == "logline" || key == "repeated")
    requires MonthOf(structure.month).None?
    ensures ParseRecordOf(s, key, structure, env) == (s.(year := Advance(s.year, None, env.src, env.zone)), Err(TypeError))
  {
  }

  /** Other keys change nothing. */
  lemma OtherKey(s: ParserState, key: string, structure: Structure, env: Env)
    requires KeyMatches(key, structure) && key != "logline" && key != "repeated"
    ensures ParseRecordOf(s, key, structure, env) == (s, Ok(None))
  {
  }

  /**
   * sender and caller lose their surrounding whitespace; an empty caller
   * and an absent security_api become 'unknown'; the rest is copied.
   */
  lemma EventFields(timestamp: int, f: LogFields, message: string)
    ensures var e := EventOf(timestamp, f, message);
      e.timestamp == timestamp && e.message == message && e.level == f.level &&
      e.senderPid == f.senderPid && e.facility == f.facility &&
      e.sender == Strip(f.sender) &&
      (e.sender == [] || (!IsSpace(e.sender[0]) && !IsSpace(e.sender[|e.sender| - 1]))) &&
      (Strip(f.caller) == "" ==> e.caller == UNKNOWN) &&
      (Strip(f.caller) != "" ==> e.caller == Strip(f.caller)) &&
      (f.securityApi == "" ==> e.securityApi == UNKNOWN) &&
      (f.securityApi != "" ==> e.securityApi == f.securityApi) &&
      e.caller != "" && e.securityApi != ""
  {
  }

  /** A caller of blanks only is 'unknown'. */
  lemma BlankCaller(timestamp: int, f: LogFields, message: string)
    requires f.caller == "  "
    ensures EventOf(timestamp, f, message).caller == UNKNOWN
  {
    assert LStrip(f.caller) == LStrip(f.caller[1..]) == LStrip(f.caller[2..]) == "";
  }

  /** The parser state after a sequence of keyed structures. */
  function Run(s: ParserState, lines: seq<(string, Structure)>, env: Env): (r: ParserState)
    requires forall i :: 0 <= i < |lines| ==> KeyMatches(lines[i].0, lines[i].1)
    decreases |lines|
  {
    if lines == [] then s
    else Run(ParseRecordOf(s, lines[0].0, lines[0].1, env).0, lines[1..], env)
  }

  /** Over any run the working year never decreases and grows by at most one per line. */
  lemma {:induction false} RunYear(s: ParserState, lines: seq<(string, Structure)>, env: Env)
    requires forall i :: 0 <= i < |lines| ==> KeyMatches(lines[i].0, lines[i].1)
    requires s.year.yearUse > 0
    ensures s.year.yearUse <= Run(s, lines, env).year.yearUse <= s.year.yearUse + |lines|
    decreases |lines|
  {
    if lines != [] {
      var next := ParseRecordOf(s, lines[0].0, lines[0].1, env).0;
      if lines[0].0 == "logline" || lines[0].0 == "repeated" {
        AdvanceMonotone(s.year, MonthOf(lines[0].1.month), env.src, env.zone);
      }
      assert s.year.yearUse <= next.year.yearUse <= s.year.yearUse + 1;
      RunYear(next, lines[1..], env);
    }
  }

  /** A December line followed by a January line dates the January line in the next year. */
  lemma YearRollover(s: ParserState, dec: Structure, jan: Structure, env: Env)
    requires s.year.yearUse > 0 && s.year.lastMonth.None?
    requires dec.LogLine? && dec.month == "Dec" && jan.month == "Jan"
    requires env.fromTimeParts(TimeParts(s.year.yearUse, 12, dec.day, dec.time.hours, dec.time.minutes, dec.time.seconds, 0, "UTC")) != 0
    ensures var s1 := ParseRecordOf(s, "logline", dec, env).0;
      s1.year == YearState(s.year.yearUse, Some(12)) &&
      LineTimestamp(s1, jan, env) ==
        Ok(env.fromTimeParts(TimeParts(s.year.yearUse + 1, 1, jan.day, jan.time.hours, jan.time.minutes, jan.time.seconds, 0, "UTC")))
  {
    MonthNames(jan.month, dec.month, "NOV");
    var s1 := ParseRecordOf(s, "logline", dec, env).0;
    assert s1.year == YearState(s.year.yearUse, Some(12));
    AdvanceGap(s1.year, 1, 12, env.src, env.zone);
  }
}
