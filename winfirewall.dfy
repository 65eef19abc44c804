/**
 * The Windows Firewall log parser.  Comment lines ('#' and a text) set the
 * log's version, software and time zone choice; a log line gives a date, a
 * time and the default fields, and becomes one event whose attributes are
 * the fields that are not blank ('-'), numbers read as integers.
 */
module WinFirewall {
  import opened Common
  import opened Timelib
  import opened Formatters

  const DATA_TYPE: string := "windows:firewall:log_entry"
  const BLANK: string := "-"
  /** eventdata.EventTimestamp.WRITTEN_TIME, the description every event is given. */
  const WRITTEN_TIME: string := "Written Time"

  /** VerifyStructure: only the exact version line of format 1.5 is accepted. */
  function VerifyStructure(line: string): (r: bool)
    ensures r <==> line == "#Version: 1.5"
  {
    line == "#Version: 1.5"
  }

  /** A value of the parse results: a single token, or the tokens of a group, which are joined. */
  datatype FieldValue = Token(text: string) | Group(parts: seq<string>)

  /** Three integers of a DATE (year, month, day) or a TIME (hours, minutes, seconds). */
  datatype Triple = Triple(a: int, b: int, c: int)

  /**
   * A matched log line: the 'date' and 'time' results (None where absent or
   * empty) and asDict().items() in the order the dictionary yields them,
   * which holds the date and time entries as well.
   */
  datatype LogLine = LogLine(date: Option<Triple>, time: Option<Triple>, items: seq<(string, FieldValue)>)

  datatype Structure = Comment(text: string) | Line(line: LogLine)

  predicate KeyMatches(key: string, structure: Structure)
  {
    (key == "comment" ==> structure.Comment?) && (key == "logline" ==> structure.Line?)
  }

  /** The parser's settings: version, software and whether timestamps are local. */
  datatype Settings = Settings(version: Option<string>, software: Option<string>, useLocalZone: bool)

  /**
   * _ParseCommentRecord: a 'Version' or 'Software' comment stores the text
   * after its first ':' (all of it empty when there is none); a 'Time'
   * comment mentioning 'local' in any case switches to the local zone.
   */
  function CommentSettings(s: Settings, comment: string): (r: Settings)
  {
    if StartsWith(comment, "Version") then s.(version := Some(Partition(comment, ":").2))
    else if StartsWith(comment, "Software") then s.(software := Some(Partition(comment, ":").2))
    else if SwitchesToLocal(comment) then s.(useLocalZone := true)
    else s
  }

  /** A 'Time' comment whose value mentions 'local' in any case. */
  predicate SwitchesToLocal(comment: string)
  {
    StartsWith(comment, "Time") && Contains(Lower(Partition(comment, ":").2), "local")
  }

  /** How one comment record changes the settings. */
  type CommentStep = (Settings, string) -> Settings

  /** The settings after the log's comments, in order. */
  function SettingsAfter(s: Settings, comments: seq<string>): Settings
  {
    Fold(CommentSettings, s, comments)
  }

  /** The settings after applying step to each comment, in order. */
  function Fold(step: CommentStep, s: Settings, comments: seq<string>): Settings
    decreases |comments|
  {
    if comments == [] then s else step(Fold(step, s, comments[..|comments| - 1]), comments[|comments| - 1])
  }

  /** The value stored for one dictionary value, or None when it is left out. */
  function Converted(v: FieldValue): Option<Value>
  {
    match v
      case Group(parts) => Some(Str(Join(parts, "")))
      case Token(text) =>
        if text == BLANK then None
        else match PyInt(text, 10)
          case Some(n) => Some(Int(n))
          case None => Some(Str(text))
  }

  /** What one item does to the attributes: date and time are skipped, blanks too, the rest is set. */
  function Step(attrs: Attributes, item: (string, FieldValue)): Attributes
  {
    if item.0 == "time" || item.0 == "date" then attrs
    else match Converted(item.1)
      case None => attrs
      case Some(v) => attrs[item.0 := v]
  }

  /** The attributes after every item has been visited in order. */
  function AttributesAfter(base: Attributes, items: seq<(string, FieldValue)>): Attributes
    decreases |items|
  {
    if items == [] then base else Step(AttributesAfter(base, items[..|items| - 1]), items[|items| - 1])
  }

  /** The value the last copied item under key k stores, if any: a reference for AttributesAfter. */
  function LastStored(items: seq<(string, FieldValue)>, k: string): (r: Option<Value>)
    decreases |items|
  {
    if items == [] then None
    else
      var last := items[|items| - 1];
      if last.0 == k && k != "time" && k != "date" && Converted(last.1).Some? then Converted(last.1)
      else LastStored(items[..|items| - 1], k)
  }

  /** The attributes of TimestampEvent before the loop. */
  function BaseAttributes(timestamp: int): Attributes
  {
    map["timestamp" := Int(timestamp), "timestamp_desc" := Str(WRITTEN_TIME)]
  }

  /** The zone the parser's timestamps are taken in. */
  function ZoneOf(s: Settings, localZone: string): string
  {
    if s.useLocalZone then localZone else "UTC"
  }

  /** The timestamp of a log line, None without date or time. */
  function LineTimestamp(line: LogLine, zone: string, fromTimeParts: TimePartsFn): (r: Option<int>)
    ensures r.None? <==> line.date.None? || line.time.None?
    ensures r.Some? ==> r.value == fromTimeParts(TimeParts(
      line.date.value.a, line.date.value.b, line.date.value.c,
      line.time.value.a, line.time.value.b, line.time.value.c, 0, zone))
  {
    match (line.date, line.time)
      case (Some(d), Some(t)) => Some(fromTimeParts(TimeParts(d.a, d.b, d.c, t.a, t.b, t.c, 0, zone)))
      case _ => None
  }

  class WinFirewallParser {
    var version: Option<string>
    var software: Option<string>
    var useLocalZone: bool
    const localZone: string
    const fromTimeParts: TimePartsFn

    function Current(): Settings
      reads this
    {
      Settings(version, software, useLocalZone)
    }

    /** The pre-processing zone, or UTC when it has none; nothing read from the log yet. */
    constructor(preZone: Option<string>, fromTimeParts: TimePartsFn)
      ensures Current() == Settings(None, None, false)
      ensures localZone == (if preZone.Some? then preZone.value else "UTC") && this.fromTimeParts == fromTimeParts
    {
      version := None;
      software := None;
      useLocalZone := false;
      localZone := if preZone.Some? then preZone.value else "UTC";
      this.fromTimeParts := fromTimeParts;
    }

    method ParseCommentRecord(comment: string)
      modifies this
      ensures Current() == CommentSettings(old(Current()), comment)
    {
      if StartsWith(comment, "Version") {
        var parts := Partition(comment, ":");
        version := Some(parts.2);
      } else if StartsWith(comment, "Software") {
        var parts := Partition(comment, ":");
        software := Some(parts.2);
      } else if StartsWith(comment, "Time") {
        var parts := Partition(comment, ":");
        if Contains(Lower(parts.2), "local") {
          useLocalZone := true;
        }
      }
    }

    /**
     * _ParseLogLine: no event without date and time or with a zero
     * timestamp; otherwise a new event whose attributes are those of a
     * TimestampEvent with every item visited in turn.
     */
    method ParseLogLine(line: LogLine) returns (r: Option<EventObject>)
      ensures r.None? <==> LineTimestamp(line, ZoneOf(Current(), localZone), fromTimeParts) in {None, Some(0)}
      ensures r.Some? ==> (fresh(r.value) && r.value.dataType == DATA_TYPE &&
        r.value.attributes == AttributesAfter(BaseAttributes(LineTimestamp(line, ZoneOf(Current(), localZone), fromTimeParts).value), line.items))
    {
      if line.date.None? || line.time.None? {
        return None;
      }
      var d := line.date.value;
      var t := line.time.value;
      var zone := if useLocalZone then localZone else "UTC";
      var timestamp := fromTimeParts(TimeParts(d.a, d.b, d.c, t.a, t.b, t.c, 0, zone));
      if timestamp == 0 {
        return None;
      }
      var e := new EventObject(DATA_TYPE, BaseAttributes(timestamp));
      var i := 0;
      while i < |line.items|
        invariant 0 <= i <= |line.items|
        invariant e.attributes == AttributesAfter(BaseAttributes(timestamp), line.items[..i])
        modifies e
      {
        var key := line.items[i].0;
        var value := line.items[i].1;
        assert line.items[..i + 1][..i] == line.items[..i];
        var stored := Converted(value);
        if key != "time" && key != "date" && stored.Some? {
          e.SetAttribute(key, stored.value);
        }
        i := i + 1;
      }
      assert line.items[..i] == line.items;
      return Some(e);
    }

    /** ParseRecord: comments update the settings, log lines give their event, other keys nothing. */
    method ParseRecord(key: string, structure: Structure) returns (r: Option<EventObject>)
      requires KeyMatches(key, structure)
      modifies this
      ensures key == "comment" ==> r.None? && Current() == CommentSettings(old(Current()), structure.text)
      ensures key != "comment" ==> Current() == old(Current())
      ensures key != "comment" && key != "logline" ==> r.None?
      ensures key == "logline" ==> (r.None? <==> LineTimestamp(structure.line, ZoneOf(Current(), localZone), fromTimeParts) in {None, Some(0)})
      ensures key == "logline" && r.Some? ==> (fresh(r.value) && r.value.dataType == DATA_TYPE &&
        r.value.attributes == AttributesAfter(BaseAttributes(LineTimestamp(structure.line, ZoneOf(Current(), localZone), fromTimeParts).value), structure.line.items))
    {
      if key == "comment" {
        ParseCommentRecord(structure.text);
        r := None;
      } else if key == "logline" {
        r := ParseLogLine(structure.line);
      } else {
        r := None;
      }
    }
  }

  // ---------------------------------------------------------------------
  // Properties

  /**
   * Each attribute is what the last item stored under its key, and an key
   * no item stored under keeps the TimestampEvent's value (or stays absent).
   */
  lemma {:induction false} AttributeIsLastStored(base: Attributes, items: seq<(string, FieldValue)>, k: string)
    ensures LastStored(items, k).Some? ==> k in AttributesAfter(base, items) && AttributesAfter(base, items)[k] == LastStored(items, k).value
    ensures LastStored(items, k).None? ==> (k in AttributesAfter(base, items) <==> k in base)
    ensures LastStored(items, k).None? && k in base ==> AttributesAfter(base, items)[k] == base[k]
    decreases |items|
  {
    if items != [] {
      AttributeIsLastStored(base, items[..|items| - 1], k);
    }
  }

  /** The date and time entries and blank fields never become attributes. */
  lemma {:induction false} DateTimeNotCopied(base: Attributes, items: seq<(string, FieldValue)>, k: string)
    requires k == "date" || k == "time" || forall i :: 0 <= i < |items| && items[i].0 == k ==> items[i].1 == Token(BLANK)
    ensures LastStored(items, k).None?
    decreases |items|
  {
    if items != [] {
      DateTimeNotCopied(base, items[..|items| - 1], k);
    }
  }

  /** A number token is stored as the integer it spells. */
  lemma NumberBecomesInteger(digits: string)
    requires digits != [] && AllDigits(digits, 10)
    ensures Converted(Token(digits)) == Some(Int(DigitsValue(digits, 10) as int))
  {
    assert DigitValue(digits[0]) < 10;
    PyIntDigits(digits, 10);
  }

  /** A token that is no number is stored as its text, a group as its parts joined, a blank not at all. */
  lemma OtherValues(word: string, parts: seq<string>)
    requires PyInt(word, 10).None? && word != BLANK
    ensures Converted(Token(word)) == Some(Str(word))
    ensures Converted(Group(parts)) == Some(Str(Join(parts, "")))
    ensures Converted(Token(BLANK)) == None
  {
  }

  lemma Digits576(size: string)
    requires size == "576"
    ensures AllDigits(size, 10) && DigitsValue(size, 10) == 576
  {
    assert DigitValue(size[0]) == 5 && DigitValue(size[1]) == 7 && DigitValue(size[2]) == 6;
    var five := size[..1];
    var fiftySeven := size[..2];
    assert five[..0] == [] && fiftySeven[..1] == five;
    assert DigitsValue(five, 10) == 5;
    assert DigitsValue(fiftySeven, 10) == 57;
  }

  /** Size 576 of the test log's eighth event is stored as a number. */
  lemma EighthEventSize(size: string)
    requires size == "576"
    ensures Converted(Token(size)) == Some(Int(576))
  {
    Digits576(size);
    NumberBecomesInteger(size);
  }

  /** A 'Version' comment keeps all else and stores the text after the colon. */
  lemma VersionComment(s: Settings, comment: string, rest: string)
    requires comment == "Version:" + rest
    ensures CommentSettings(s, comment) == s.(version := Some(rest))
  {
    assert comment[..7] == "Version";
    assert At(comment, ":", 7) by { assert comment[7..8] == ":"; }
    forall j | 0 <= j < 7 ensures !At(comment, ":", j) {
      assert comment[j] == "Version"[j];
    }
    PartitionFirst(comment, ":", 7);
    assert comment[8..] == rest;
  }

  /** A 'Time' comment sets the local zone exactly when its value mentions 'local'; the zone choice is never undone. */
  lemma TimeComment(s: Settings, comment: string)
    requires StartsWith(comment, "Time")
    ensures CommentSettings(s, comment).useLocalZone == (s.useLocalZone || Contains(Lower(Partition(comment, ":").2), "local"))
    ensures CommentSettings(s, comment).version == s.version && CommentSettings(s, comment).software == s.software
  {
    assert !StartsWith(comment, "Version") by { assert comment[0] == 'T'; }
    assert !StartsWith(comment, "Software") by { assert comment[0] == 'T'; }
  }

  /** One comment switches to the local zone exactly when it is a 'Time' comment mentioning 'local'. */
  lemma LocalStep(s: Settings, comment: string)
    ensures CommentSettings(s, comment).useLocalZone <==> s.useLocalZone || SwitchesToLocal(comment)
  {
    if StartsWith(comment, "Time") {
      TimeComment(s, comment);
    }
  }

  /** The local zone is chosen exactly when it was already chosen or one of the comments switches to it. */
  lemma LocalAfterComments(s: Settings, comments: seq<string>)
    ensures SettingsAfter(s, comments).useLocalZone <==>
      s.useLocalZone || exists i :: 0 <= i < |comments| && SwitchesToLocal(comments[i])
  {
    forall t: Settings, c: string
      ensures CommentSettings(t, c).useLocalZone <==> t.useLocalZone || SwitchesToLocal(c)
    {
      LocalStep(t, c);
    }
    FoldLocal(CommentSettings, SwitchesToLocal, s, comments);
  }

  /** A fold of steps that each switch to the local zone exactly on the comments sw accepts. */
  lemma {:induction false} FoldLocal(step: CommentStep, sw: string -> bool, s: Settings, comments: seq<string>)
    requires forall t, c :: step(t, c).useLocalZone <==> t.useLocalZone || sw(c)
    ensures Fold(step, s, comments).useLocalZone <==> s.useLocalZone || exists i :: 0 <= i < |comments| && sw(comments[i])
    decreases |comments|
  {
    if comments != [] {
      var prefix := comments[..|comments| - 1];
      var last := comments[|comments| - 1];
      FoldLocal(step, sw, s, prefix);
      assert comments == prefix + [last];
      ExistsSplit(sw, prefix, last);
    }
  }

  /** Some element satisfies p exactly when one before the last does or the last one does. */
  lemma ExistsSplit<T>(p: T -> bool, prefix: seq<T>, last: T)
    ensures (exists i :: 0 <= i < |prefix + [last]| && p((prefix + [last])[i])) <==>
      (exists i :: 0 <= i < |prefix| && p(prefix[i])) || p(last)
  {
    var xs := prefix + [last];
    if exists i :: 0 <= i < |xs| && p(xs[i]) {
      var i :| 0 <= i < |xs| && p(xs[i]);
      if i < |prefix| {
        assert xs[i] == prefix[i];
      }
    }
    if exists i :: 0 <= i < |prefix| && p(prefix[i]) {
      var i :| 0 <= i < |prefix| && p(prefix[i]);
      assert xs[i] == prefix[i];
    }
    assert xs[|prefix|] == last;
  }

  /**
   * Log lines are read in the local zone once a comment has asked for it
   * (the ParseLogLine and ParseRecord timestamps use ZoneOf of the current
   * settings), and in UTC when no comment has.
   */
  lemma ZoneAfterComments(comments: seq<string>, localZone: string)
    ensures (exists i :: 0 <= i < |comments| && SwitchesToLocal(comments[i])) ==>
      ZoneOf(SettingsAfter(Settings(None, None, false), comments), localZone) == localZone
    ensures (forall i :: 0 <= i < |comments| ==> !SwitchesToLocal(comments[i])) ==>
      ZoneOf(SettingsAfter(Settings(None, None, false), comments), localZone) == "UTC"
  {
    LocalAfterComments(Settings(None, None, false), comments);
  }

  /** The comment '#Time Format: Local' switches to the local zone. */
  lemma TimeFormatLocal(s: Settings, comment: string, localZone: string)
    requires comment == "Time Format: Local"
    ensures SwitchesToLocal(comment)
    ensures ZoneOf(CommentSettings(s, comment), localZone) == localZone
  {
    var head, value := "Time Format", " Local";
    ValueAfterColon(comment, head, value);
    LocalMentioned(value);
    assert StartsWith(comment, "Time") by { assert comment[..4] == "Time"; }
    TimeComment(s, comment);
  }

  lemma ValueAfterColon(comment: string, head: string, value: string)
    requires head == "Time Format" && value == " Local" && comment == head + ":" + value
    ensures Partition(comment, ":").2 == value
  {
    FirstAtChar(head, ':', value);
    AfterKey(head, ":", value);
  }

  lemma LocalMentioned(value: string)
    requires value == " Local"
    ensures Contains(Lower(value), "local")
  {
    var low := Lower(value);
    assert low[1..6] == "local";
    assert At(low, "local", 1);
  }

  /** Once local, always local: no comment switches back to UTC. */
  lemma LocalZoneSticks(s: Settings, comment: string)
    requires s.useLocalZone
    ensures CommentSettings(s, comment).useLocalZone
  {
  }
}
