/**
 * The Mac application firewall log parser.  A log line gives month, day and
 * time, computer name, agent, a status between angle brackets, a process
 * name and the action; a repeated line stands for the previous log line
 * once more.  The parser keeps the working year, the last month seen and
 * the last log line across calls.
 */
module MacAppFirewall {
  import opened Common
  import opened Timelib
  import opened YearTracking

  const DATA_TYPE: string := "mac:asl:appfirewall:line"
  const CREATING_ACTION: string := "creating /var/log/appfirewall.log"
  const ERROR_STATUS: string := "Error"

  /** The fields of a log line after the time; action is the raw undecoded text. */
  datatype FirewallFields = FirewallFields(
    computerName: string, agent: string, status: string, processName: string, action: string)

  /** The two line structures: 'logline' and 'repeated'. */
  datatype Structure =
    | LogLine(month: string, day: int, time: Clock, fields: FirewallFields)
    | Repeated(month: string, day: int, time: Clock, processName: string)

  /** The base parser hands each structure over under the key it was declared with. */
  predicate KeyMatches(key: string, structure: Structure)
  {
    (key == "logline" ==> structure.LogLine?) && (key == "repeated" ==> structure.Repeated?)
  }

  /** A MacAppFirewallLogEvent; its timestamp is always an ADDED_TIME. */
  datatype FirewallEvent = FirewallEvent(
    timestamp: int, computerName: string, agent: string, status: string,
    processName: string, action: string)

  /**
   * UTF-8 decoding of the raw action: strict decoding (None where it raises
   * UnicodeDecodeError) and decoding that drops the bytes it cannot decode.
   * Both are Python's codec and lie outside the model.
   */
  datatype Utf8Codec = Utf8Codec(strict: string -> Option<string>, ignoring: string -> string)

  /** What the parser is given besides the lines. */
  datatype Env = Env(src: YearSource, zone: string, fromTimeParts: TimePartsFn, codec: Utf8Codec)

  /** The state kept across lines: _year_use, _last_month and previous_structure. */
  datatype ParserState = ParserState(year: YearState, previous: Option<FirewallFields>)

  /** VerifyStructure on the result of matching the log-line grammar (None when it does not match). */
  function VerifyStructure(parsed: Option<FirewallFields>): (r: bool)
    ensures r <==> (parsed.Some? && parsed.value.status == ERROR_STATUS && parsed.value.action == CREATING_ACTION)
  {
    match parsed
      case None => false
      case Some(line) => !(line.action != CREATING_ACTION || line.status != ERROR_STATUS)
  }

  /** The decoded action: strictly if that succeeds, otherwise with the bad bytes dropped. */
  function DecodeAction(raw: string, codec: Utf8Codec): (r: string)
    ensures codec.strict(raw).Some? ==> r == codec.strict(raw).value
    ensures codec.strict(raw).None? ==> r == codec.ignoring(raw)
  {
    match codec.strict(raw)
      case Some(a) => a
      case None => codec.ignoring(raw)
  }

  /** The event for a line's timestamp and the log line it takes its data from. */
  function EventOf(timestamp: int, f: FirewallFields, codec: Utf8Codec): (e: FirewallEvent)
  {
    FirewallEvent(timestamp, f.computerName, f.agent, f.status, Strip(f.processName), DecodeAction(f.action, codec))
  }

  /** A line's timestamp in the year the state advances to. */
  function LineTimestamp(s: ParserState, structure: Structure, env: Env): (r: Result<int>)
  {
    var month := MonthOf(structure.month);
    GetTimestamp(structure.day, month, Advance(s.year, month, env.src, env.zone).yearUse, structure.time, env.fromTimeParts)
  }

  /** _ParseLogLine: the new state and the event (None for a dropped line) or the exception. */
  function ParseLogLine(s: ParserState, structure: Structure, key: string, env: Env): (r: (ParserState, Result<Option<FirewallEvent>>))
    requires KeyMatches(key, structure) && (key == "logline" || key == "repeated")
  {
    var month := MonthOf(structure.month);
    var year := Advance(s.year, month, env.src, env.zone);
    var advanced := s.(year := year);
    match LineTimestamp(s, structure, env)
      case Err(e) => (advanced, Err(e))
      case Ok(t) =>
        if t == 0 then (advanced, Ok(None))
        else
          var committed := advanced.(year := year.(lastMonth := month));
          if key == "logline" then
            (committed.(previous := Some(structure.fields)), Ok(Some(EventOf(t, structure.fields, env.codec))))
          else match s.previous
            case None => (committed, Err(AttributeError))
            case Some(p) => (committed, Ok(Some(EventOf(t, p, env.codec))))
  }

  /** ParseRecord: any key other than 'logline' and 'repeated' yields nothing and changes nothing. */
  function ParseRecordOf(s: ParserState, key: string, structure: Structure, env: Env): (r: (ParserState, Result<Option<FirewallEvent>>))
    requires KeyMatches(key, structure)
  {
    if key == "logline" || key == "repeated" then ParseLogLine(s, structure, key, env)
    else (s, Ok(None))
  }

  /** The parser object. */
  class MacAppFirewallParser {
    var yearUse: int
    var lastMonth: Option<int>
    var previousStructure: Option<FirewallFields>
    const env: Env

    function State(): ParserState
      reads this
    {
      ParserState(YearState(yearUse, lastMonth), previousStructure)
    }

    /** The year from the preprocessing object (0 when it has none); no month and no line seen yet. */
    constructor(preYear: int, env: Env)
      ensures State() == ParserState(YearState(preYear, None), None) && this.env == env
    {
      yearUse := preYear;
      lastMonth := None;
      previousStructure := None;
      this.env := env;
    }

    method ParseRecord(key: string, structure: Structure) returns (r: Result<Option<FirewallEvent>>)
      requires KeyMatches(key, structure)
      modifies this
      ensures (State(), r) == ParseRecordOf(old(State()), key, structure, env)
    {
      if key != "logline" && key != "repeated" {
        return Ok(None);
      }
      ghost var s0 := State();
      if yearUse == 0 {
        yearUse := GetYear(env.src, env.zone);
        if yearUse == 0 {
          yearUse := env.src.currentYear;
        }
      }
      var month := MonthOf(structure.month);
      if Falsy(lastMonth) {
        lastMonth := month;
      }
      if Py2Less(month, lastMonth) {
        yearUse := yearUse + 1;
      }
      assert YearState(yearUse, lastMonth) == Advance(s0.year, month, env.src, env.zone);
      var timestamp := GetTimestamp(structure.day, month, yearUse, structure.time, env.fromTimeParts);
      assert timestamp == LineTimestamp(s0, structure, env);
      if timestamp.Err? {
        return Err(timestamp.exc);
      }
      if timestamp.value == 0 {
        return Ok(None);
      }
      lastMonth := month;
      var fields: FirewallFields;
      if key == "logline" {
        previousStructure := Some(structure.fields);
        fields := structure.fields;
      } else {
        if previousStructure.None? {
          return Err(AttributeError);
        }
        fields := previousStructure.value;
      }
      r := Ok(Some(EventOf(timestamp.value, fields, env.codec)));
    }
  }

  // ---------------------------------------------------------------------
  // Properties

  /** A line whose month is below the remembered one moves the year on, whether or not the line is then dropped. */
  lemma GapPersists(s: ParserState, key: string, structure: Structure, env: Env, last: int)
    requires KeyMatches(key, structure) && (key == "logline" || key == "repeated")
    requires s.year.lastMonth == Some(last) && last != 0
    requires MonthOf(structure.month).Some? && MonthOf(structure.month).value < last
    ensures ParseRecordOf(s, key, structure, env).0.year.yearUse == StartYear(s.year.yearUse, env.src, env.zone) + 1
  {
    AdvanceGap(s.year, MonthOf(structure.month).value, last, env.src, env.zone);
  }

  /**
   * A line with timestamp 0 returns None, leaves the previous log line in
   * place and does not make its month the remembered one (beyond filling
   * in a missing one); a dated line does.
   */
  lemma DroppedLine(s: ParserState, key: string, structure: Structure, env: Env)
    requires KeyMatches(key, structure) && (key == "logline" || key == "repeated")
    ensures var (s', r) := ParseRecordOf(s, key, structure, env);
      var t := LineTimestamp(s, structure, env);
      (t == Ok(0) ==> (r == Ok(None) && s'.previous == s.previous &&
        s'.year.lastMonth == if Falsy(s.year.lastMonth) then MonthOf(structure.month) else s.year.lastMonth)) &&
      (t.Ok? && t.value != 0 ==> s'.year.lastMonth == MonthOf(structure.month))
  {
  }

  /**
   * A dated repeated line gives the event the previous log line would give
   * at the repeated line's timestamp: every other field comes from that log
   * line.  With no previous log line it raises AttributeError.
   */
  lemma RepeatedCopiesPrevious(s: ParserState, structure: Structure, env: Env)
    requires structure.Repeated?
    requires LineTimestamp(s, structure, env).Ok? && LineTimestamp(s, structure, env).value != 0
    ensures var (s', r) := ParseRecordOf(s, "repeated", structure, env);
      s'.previous == s.previous &&
      (s.previous.None? ==> r == Err(AttributeError)) &&
      (s.previous.Some? ==> (r.Ok? && r.value.Some? &&
        r.value.value == EventOf(LineTimestamp(s, structure, env).value, s.previous.value, env.codec) &&
        r.value.value.processName == Strip(s.previous.value.processName)))
  {
  }

  /** A dated log line becomes the previous structure. */
  lemma LogLineRemembered(s: ParserState, structure: Structure, env: Env)
    requires structure.LogLine?
    requires LineTimestamp(s, structure, env).Ok? && LineTimestamp(s, structure, env).value != 0
    ensures var (s', r) := ParseRecordOf(s, "logline", structure, env);
      s'.previous == Some(structure.fields) &&
      r == Ok(Some(EventOf(LineTimestamp(s, structure, env).value, structure.fields, env.codec)))
  {
  }

  /** process_name loses its surrounding whitespace, action is decoded, the rest is copied. */
  lemma EventFields(timestamp: int, f: FirewallFields, codec: Utf8Codec)
    ensures var e := EventOf(timestamp, f, codec);
      e.timestamp == timestamp && e.computerName == f.computerName && e.agent == f.agent &&
      e.status == f.status && e.processName == Strip(f.processName) &&
      (e.processName == [] || (!IsSpace(e.processName[0]) && !IsSpace(e.processName[|e.processName| - 1]))) &&
      (codec.strict(f.action).Some? ==> e.action == codec.strict(f.action).value) &&
      (codec.strict(f.action).None? ==> e.action == codec.ignoring(f.action))
  {
  }

  /** An unknown month raises TypeError, after the year bookkeeping has been done. */
  lemma UnknownMonthRaises(s: ParserState, key: string, structure: Structure, env: Env)
    requires KeyMatches(key, structure) && (key == "logline" || key == "repeated")
    requires MonthOf(structure.month).None?
    ensures ParseRecordOf(s, key, structure, env) == (s.(year := Advance(s.year, None, env.src, env.zone)), Err(TypeError))
  {
  }

  /** Other keys change nothing. */
  lemma OtherKey(s: ParserState, key: string, structure: Structure, env: Env)
    requires KeyMatches(key, structure) && key != "logline" && key != "repeated"
    ensures ParseRecordOf(s, key, structure, env) == (s, Ok(None))
  {
  }
}
