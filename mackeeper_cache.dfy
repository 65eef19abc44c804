/**
 * The MacKeeper cache SQLite plugin.  Each row of the receiver-data and
 * response tables becomes one event whose description and text depend
 * on the request URL; support-chat rows carry a JQuery callback whose
 * JSON object is picked apart.
 */
module MacKeeperCache {
  import opened Common
  import opened Timelib

  // ---------------------------------------------------------------------
  // JSON values and JQuery extraction

  /**
   * A value json.loads produces: None, a bool, an integer, a string, or
   * something else (a list, an object), given by its text and truthiness.
   */
  datatype JValue = JNull | JBool(b: bool) | JInt(i: int) | JStr(s: string) | JOther(text: string, truthy: bool)

  /** A decoded JSON object, as the pairs it yields. */
  type JObject = seq<(string, JValue)>

  /** json.loads on an object's text; None for the ValueError. */
  type JsonLoads = string -> Option<JObject>

  /** Python truthiness of a value. */
  predicate Truthy(v: JValue)
  {
    match v
      case JNull => false
      case JBool(b) => b
      case JInt(i) => i != 0
      case JStr(s) => s != []
      case JOther(_, t) => t
  }

  /** u'{}'.format(v). */
  function Render(v: JValue): string
  {
    match v
      case JNull => "None"
      case JBool(b) => if b then "True" else "False"
      case JInt(i) => IntToStr(i)
      case JStr(s) => s
      case JOther(text, _) => text
  }

  /** d.get(k): the value of the first pair with key k. */
  function Get(d: JObject, k: string): (r: Option<JValue>)
    ensures r.Some? ==> exists i :: 0 <= i < |d| && d[i] == (k, r.value)
    ensures r.None? ==> forall i :: 0 <= i < |d| ==> d[i].0 != k
  {
    if d == [] then None
    else if d[0].0 == k then Some(d[0].1)
    else Get(d[1..], k)
  }

  /**
   * The data part of a JQuery text, by the first rule that applies: the
   * text between the first '[' and the ']' after it; for a '//' comment,
   * '{' and what follows the first '{'; for a '({' call, what lies between
   * the first '(' and the last ')'.  Otherwise nothing.
   */
  function DataPart(raw: string): string
  {
    if Contains(raw, "[") then Partition(Partition(raw, "[").2, "]").0
    else if StartsWith(raw, "//") then "{" + Partition(raw, "{").2
    else if Contains(raw, "({") then RPartitionHead(Partition(raw, "(").2, ")")
    else []
  }

  /** ExtractJQuery: the JSON object in the data part, or {} when there is none or it does not decode. */
  function ExtractJQuery(raw: string, loads: JsonLoads): JObject
  {
    if raw == [] then []
    else
      var part := DataPart(raw);
      if part == [] then []
      else match loads(part)
        case None => []
        case Some(d) => d
  }

  /** Between the first '[' and the next ']'. */
  lemma BracketPart(pre: string, inner: string, rest: string)
    requires Lacks(pre, '[') && Lacks(inner, ']') && (rest == [] || rest[0] == ']')
    ensures DataPart(pre + "[" + inner + rest) == inner
  {
    var line := inner + rest;
    var raw := pre + "[" + line;
    assert raw == pre + "[" + inner + rest;
    FirstAtChar(pre, '[', line);
    AfterKey(pre, "[", line);
    BeforeStop(inner, rest, ']');
  }

  /** A '//' comment without '[': '{' and what follows its first '{'. */
  lemma CommentPart(pre: string, rest: string)
    requires StartsWith(pre, "//") && Lacks(pre + "{" + rest, '[') && Lacks(pre, '{')
    ensures DataPart(pre + "{" + rest) == "{" + rest
  {
    var raw := pre + "{" + rest;
    FirstAtChar(pre, '{', rest);
    AfterKey(pre, "{", rest);
    NoCharNoFind(raw, '[');
    assert raw[..2] == pre[..2];
  }

  lemma NoCharNoFind(s: string, c: char)
    requires Lacks(s, c)
    ensures !Contains(s, [c])
  {
    forall j | 0 <= j < |s| ensures !At(s, [c], j) {
      assert s[j..j + 1] == [s[j]];
    }
  }

  /** The parenthesised call is present. */
  lemma CallPresent(pre: string, line: string)
    requires |line| > 0 && line[0] == '{'
    ensures Contains(pre + "(" + line, "({")
  {
    var raw := pre + "(" + line;
    assert raw[|pre|..|pre| + 2] == "({";
    assert At(raw, "({", |pre|);
  }

  /** A '({' call without '[' and not a comment: between the first '(' and the last ')'. */
  lemma ParenPart(pre: string, inner: string, tail: string)
    requires Lacks(pre, '(') && Lacks(tail, ')') && |inner| > 0 && inner[0] == '{'
    requires Lacks(pre + "(" + inner + ")" + tail, '[') && !StartsWith(pre + "(" + inner + ")" + tail, "//")
    ensures DataPart(pre + "(" + inner + ")" + tail) == inner
  {
    var line := inner + ")" + tail;
    var raw := pre + "(" + line;
    assert raw == pre + "(" + inner + ")" + tail;
    NoCharNoFind(raw, '[');
    CallPresent(pre, line);
    FirstAtChar(pre, '(', line);
    AfterKey(pre, "(", line);
    BeforeLastChar(inner, ')', tail);
  }

  /** Text with none of '[', a leading '//' or '({' has no data part: {}. */
  lemma NoPart(raw: string, loads: JsonLoads)
    requires !Contains(raw, "[") && !StartsWith(raw, "//") && !Contains(raw, "({")
    ensures ExtractJQuery(raw, loads) == []
  {
  }

  /** A data part that does not decode gives {}. */
  lemma UndecodableIsEmpty(raw: string, loads: JsonLoads)
    requires loads(DataPart(raw)) == None
    ensures ExtractJQuery(raw, loads) == []
  {
  }

  // ---------------------------------------------------------------------
  // DictToList

  /** The keys DictToList leaves out. */
  predicate Excluded(key: string)
  {
    key == "body" || key == "datetime" || key == "type" || key == "room" || key == "rooms" || key == "id"
  }

  /** A pair's line: u'{} = {}'.format(key, value). */
  function PairLine(p: (string, JValue)): string
  {
    p.0 + " = " + Render(p.1)
  }

  /** The lines of the pairs whose keys are not excluded, in the object's order. */
  function PairLines(d: JObject): (r: seq<string>)
    ensures |r| <= |d|
    decreases |d|
  {
    if d == [] then []
    else
      var before := PairLines(d[..|d| - 1]);
      if Excluded(d[|d| - 1].0) then before else before + [PairLine(d[|d| - 1])]
  }

  /** A line is listed exactly when some pair with a key that is not excluded renders as it. */
  lemma {:induction false} ListedIff(d: JObject, line: string)
    ensures line in PairLines(d) <==> exists i :: 0 <= i < |d| && !Excluded(d[i].0) && PairLine(d[i]) == line
    decreases |d|
  {
    if d != [] {
      var prefix := d[..|d| - 1];
      ListedIff(prefix, line);
      if exists i :: 0 <= i < |d| && !Excluded(d[i].0) && PairLine(d[i]) == line {
        var i :| 0 <= i < |d| && !Excluded(d[i].0) && PairLine(d[i]) == line;
        if i < |d| - 1 {
          assert prefix[i] == d[i];
        }
      }
      if line in PairLines(prefix) {
        var i :| 0 <= i < |prefix| && !Excluded(prefix[i].0) && PairLine(prefix[i]) == line;
        assert d[i] == prefix[i];
      }
    }
  }

  /** An object with only excluded keys lists nothing. */
  lemma {:induction false} OnlyExcluded(d: JObject)
    requires forall i :: 0 <= i < |d| ==> Excluded(d[i].0)
    ensures PairLines(d) == []
    decreases |d|
  {
    if d != [] {
      OnlyExcluded(d[..|d| - 1]);
    }
  }

  /** DictToList: the list built pair by pair. */
  method DictToList(d: JObject) returns (lines: seq<string>)
    ensures lines == PairLines(d)
  {
    lines := [];
    var i := 0;
    while i < |d|
      invariant 0 <= i <= |d|
      invariant lines == PairLines(d[..i])
    {
      assert d[..i + 1][..i] == d[..i];
      if !Excluded(d[i].0) {
        lines := lines + [d[i].0 + " = " + Render(d[i].1)];
      }
      i := i + 1;
    }
    assert d[..i] == d;
  }

  /** u'{}'.format(list) for a list of strings: "[u'a', u'b']" (quotes inside are not escaped here). */
  function ListText(items: seq<string>): string
  {
    "[" + Join(QuotedItems(items), ", ") + "]"
  }

  function QuotedItems(items: seq<string>): (r: seq<string>)
    ensures |r| == |items|
  {
    if items == [] then [] else ["u'" + items[0] + "'"] + QuotedItems(items[1..])
  }

  // ---------------------------------------------------------------------
  // ParseChatData

  /** The dictionary ParseChatData returns; room, sid and user are set only when present. */
  datatype ChatStore = ChatStore(text: string, room: Option<JValue>, id: Option<JValue>,
                                 sid: Option<int>, user: Option<JValue>)

  /** The chat text: the body with newlines as spaces, or 'No text.'; a '//' body with '{' is rewritten. */
  function ChatText(data: JObject, loads: JsonLoads): Result<string>
  {
    match Get(data, "body")
      case None => Ok("No text.")
      case Some(v) =>
        if !v.JStr? then Err(AttributeError)
        else
          var body := ReplaceChar(v.s, '\n', ' ');
          if StartsWith(body, "//") && Contains(body, "{") then
            var bodyDict := ExtractJQuery(body, loads);
            var title := Partition(body, "{").0;
            Ok(title[2..] + " <" + ListText(PairLines(bodyDict)) + ">")
          else Ok(body)
  }

  /** The chat room: 'rooms' when truthy, else 'room' when truthy. */
  function ChatRoom(data: JObject): (r: Option<JValue>)
    ensures r.Some? ==> Truthy(r.value)
  {
    var rooms := Get(data, "rooms");
    var room := if rooms.Some? && Truthy(rooms.value) then rooms else Get(data, "room");
    if room.Some? && Truthy(room.value) then room else None
  }

  /** int(user): None for the ValueError or TypeError the plugin catches. */
  function UserInt(v: JValue): Option<int>
  {
    match v
      case JInt(i) => Some(i)
      case JBool(b) => Some(if b then 1 else 0)
      case JStr(s) => PyInt(s, 10)
      case JNull => None
      case JOther(_, _) => None
  }

  /** ParseChatData: the text, the room, the id, and the user as a number (sid) or as given (user). */
  function ParseChatData(data: JObject, loads: JsonLoads): (r: Result<ChatStore>)
    ensures r.Err? <==> Get(data, "body").Some? && !Get(data, "body").value.JStr?
    ensures r.Ok? ==> r.value.sid.None? || r.value.user.None?
    ensures r.Ok? ==> r.value.id == Get(data, "id")
  {
    match ChatText(data, loads)
      case Err(e) => Err(e)
      case Ok(text) =>
        var user := Get(data, "user");
        var truthyUser := user.Some? && Truthy(user.value);
        var sid := if truthyUser then UserInt(user.value) else None;
        Ok(ChatStore(text, ChatRoom(data), Get(data, "id"), sid,
                     if truthyUser && sid.None? then user else None))
  }

  /** A body without '//' is kept with its newlines as spaces; no body gives 'No text.'. */
  lemma PlainBody(data: JObject, body: string, loads: JsonLoads)
    requires Get(data, "body") == Some(JStr(body)) && !StartsWith(body, "//")
    ensures ChatText(data, loads) == Ok(ReplaceChar(body, '\n', ' '))
    ensures forall i :: 0 <= i < |ChatText(data, loads).value| ==> ChatText(data, loads).value[i] != '\n'
  {
  }

  lemma NoBody(data: JObject, loads: JsonLoads)
    requires forall i :: 0 <= i < |data| ==> data[i].0 != "body"
    ensures ChatText(data, loads) == Ok("No text.")
  {
  }

  /** A user that reads as an integer is the sid; any other truthy user is kept as the user. */
  lemma UserSplit(data: JObject, loads: JsonLoads)
    requires ParseChatData(data, loads).Ok?
    ensures var c := ParseChatData(data, loads).value;
      match Get(data, "user")
        case None => c.sid.None? && c.user.None?
        case Some(u) =>
          if !Truthy(u) then c.sid.None? && c.user.None?
          else if UserInt(u).Some? then c.sid == UserInt(u) && c.user.None?
          else c.sid.None? && c.user == Some(u)
  {
  }

  /** The room comes from 'rooms' when that is truthy, else from 'room'. */
  lemma RoomFallback(data: JObject)
    ensures var rooms := Get(data, "rooms");
      if rooms.Some? && Truthy(rooms.value) then ChatRoom(data) == rooms
      else ChatRoom(data) == (var room := Get(data, "room"); if room.Some? && Truthy(room.value) then room else None)
  {
  }

  /** A string user with digits is a sid. */
  lemma DigitUserIsSid(data: JObject, digits: string, loads: JsonLoads)
    requires Get(data, "user") == Some(JStr(digits)) && digits != [] && AllDigits(digits, 10)
    requires ParseChatData(data, loads).Ok?
    ensures ParseChatData(data, loads).value.sid == Some(DigitsValue(digits, 10) as int)
    ensures ParseChatData(data, loads).value.user == None
  {
    PyIntDigits(digits, 10);
    assert Truthy(JStr(digits)) && UserInt(JStr(digits)) == Some(DigitsValue(digits, 10) as int);
    UserSplit(data, loads);
  }

  // ---------------------------------------------------------------------
  // Rows and events

  /** time_string: a Java timestamp or a date string. */
  datatype TimeValue = TimeInt(ms: int) | TimeText(text: string)

  /** A row of the query: request_key, the receiver data (None when it does not decode) and time_string. */
  datatype Row = Row(requestKey: string, data: Option<string>, time: TimeValue)

  /** The data dictionary handed to the event. */
  datatype EntryData = EntryData(text: Option<string>, room: Option<JValue>, id: Option<JValue>,
                                 sid: Option<int>, user: Option<JValue>, entryType: Option<JValue>)

  datatype MacKeeperEvent = MacKeeperEvent(
    timestamp: int, timestampDesc: TimeDesc, description: string, url: string,
    text: Option<string>, userSid: Option<int>, userName: Option<JValue>,
    eventType: Option<JValue>, room: Option<JValue>, recordId: Option<JValue>)

  /** The timestamp description of every event: eventdata.EventTimestamp.ADDED_TIME. */
  datatype TimeDesc = AddedTime

  function EventTimestamp(t: TimeValue, fromTimeString: TimeStringFn): int
  {
    match t
      case TimeInt(ms) => FromJavaTime(ms)
      case TimeText(s) => fromTimeString(s)
  }

  /** MacKeeperCacheEvent as written: event_type is read from a key the plugin never sets. */
  function EventAsWritten(t: TimeValue, description: string, url: string, data: EntryData,
                          fromTimeString: TimeStringFn): (e: MacKeeperEvent)
    ensures e.eventType == None
  {
    MacKeeperEvent(EventTimestamp(t, fromTimeString), AddedTime, description, url,
                   data.text, data.sid, data.user, None, data.room, data.id)
  }

  /** MacKeeperCacheEvent with event_type taken from the entry type the plugin stores. */
  function Event(t: TimeValue, description: string, url: string, data: EntryData,
                 fromTimeString: TimeStringFn): (e: MacKeeperEvent)
    ensures e.eventType == data.entryType && e.text == data.text && e.url == url
  {
    MacKeeperEvent(EventTimestamp(t, fromTimeString), AddedTime, description, url,
                   data.text, data.sid, data.user, data.entryType, data.room, data.id)
  }

  function TextOnly(text: string): EntryData
  {
    EntryData(Some(text), None, None, None, None, None)
  }

  /** The kind of a request URL, by the first test that holds. */
  datatype Category = PlistUrl | EventUrl | AccountUrl | ChatUrl | OtherUrl

  function CategoryOf(url: string): (c: Category)
    ensures c == OtherUrl <==>
      !EndsWith(url, "plist") && !StartsWith(url, "http://event.zeobit.com") &&
      !StartsWith(url, "http://account.zeobit.com") && !(StartsWith(url, "http://support.") && Contains(url, "chat"))
  {
    if EndsWith(url, "plist") then PlistUrl
    else if StartsWith(url, "http://event.zeobit.com") then EventUrl
    else if StartsWith(url, "http://account.zeobit.com") then AccountUrl
    else if StartsWith(url, "http://support.") && Contains(url, "chat") then ChatUrl
    else OtherUrl
  }

  /** data_dict.get('type', ''). */
  function EntryType(d: JObject): JValue
  {
    match Get(d, "type") case Some(v) => v case None => JStr("")
  }

  /** What follows 'Chat ' in the description of an entry of type t. */
  function ChatLabel(t: JValue): string
  {
    if t == JStr("comment") then "Comment"
    else if t == JStr("outgoing") then "Outgoing Message"
    else if t == JStr("incoming") then "Incoming Message"
    else "Entry"
  }

  /** The row's JQuery text: its data, or '' when that does not decode. */
  function JQueryText(row: Row): string
  {
    match row.data case Some(s) => s case None => []
  }

  /**
   * The description suffix and data of a support-chat entry: the chat data
   * and its entry type; an entry of no known type lists its pairs instead,
   * or 'No additional data.'.
   */
  function ChatEntry(dataDict: JObject, loads: JsonLoads): (r: Result<(string, EntryData)>)
    ensures r.Err? <==> ParseChatData(dataDict, loads).Err?
    ensures r.Ok? ==> r.value.0 == ChatLabel(EntryType(dataDict)) && r.value.1.entryType == Some(EntryType(dataDict))
    ensures r.Ok? && r.value.0 != "Entry" ==> r.value.1.text == Some(ParseChatData(dataDict, loads).value.text)
    ensures r.Ok? && r.value.0 == "Entry" ==>
      var joined := Join(PairLines(dataDict), ";");
      r.value.1.text == Some(if joined == [] then "No additional data." else joined)
  {
    match ParseChatData(dataDict, loads)
      case Err(e) => Err(e)
      case Ok(c) =>
        var entryType := EntryType(dataDict);
        var data := EntryData(Some(c.text), c.room, c.id, c.sid, c.user, Some(entryType));
        var kind := ChatLabel(entryType);
        if kind != "Entry" then Ok((kind, data))
        else
          var joined := Join(PairLines(dataDict), ";");
          Ok((kind, data.(text := Some(if joined == [] then "No additional data." else joined))))
  }

  /** The description and data dictionary of a row. */
  function RowData(row: Row, loads: JsonLoads): Result<(string, EntryData)>
  {
    var url := row.requestKey;
    match CategoryOf(url)
      case PlistUrl => Ok(("Configuration Definition", TextOnly("Plist content added to cache.")))
      case EventUrl => Ok(("MacKeeper Event", TextOnly(ReplaceChar(Partition(url, "?").2, '&', ' '))))
      case AccountUrl =>
        var activity := Partition(url, "#").2;
        Ok(("Account Activity", TextOnly(if activity != [] then "Action started: " + activity else "Unknown activity.")))
      case ChatUrl =>
        (match ChatEntry(ExtractJQuery(JQueryText(row), loads), loads)
          case Err(e) => Err(e)
          case Ok(entry) => Ok(("Chat " + entry.0, entry.1)))
      case OtherUrl => Ok(("MacKeeper Entry", EntryData(None, None, None, None, None, None)))
  }

  /** ParseReceiverData: the row's one event, or the exception that prevents it. */
  function ParseReceiverData(row: Row, loads: JsonLoads, fromTimeString: TimeStringFn): (r: Result<MacKeeperEvent>)
    ensures r.Ok? ==> r.value.url == row.requestKey && r.value.timestampDesc == AddedTime
  {
    match RowData(row, loads)
      case Err(e) => Err(e)
      case Ok(d) => Ok(Event(row.time, d.0, row.requestKey, d.1, fromTimeString))
  }

  /** ParseReceiverData as written, with event_type never set. */
  function ParseReceiverDataAsWritten(row: Row, loads: JsonLoads, fromTimeString: TimeStringFn): (r: Result<MacKeeperEvent>)
    ensures r.Ok? ==> r.value.eventType == None
  {
    match RowData(row, loads)
      case Err(e) => Err(e)
      case Ok(d) => Ok(EventAsWritten(row.time, d.0, row.requestKey, d.1, fromTimeString))
  }

  /** A URL ending in 'plist' is a configuration definition, whatever else it holds. */
  lemma PlistRow(row: Row, loads: JsonLoads, fromTimeString: TimeStringFn)
    requires EndsWith(row.requestKey, "plist")
    ensures ParseReceiverData(row, loads, fromTimeString).Ok?
    ensures ParseReceiverData(row, loads, fromTimeString).value.description == "Configuration Definition"
    ensures ParseReceiverData(row, loads, fromTimeString).value.text == Some("Plist content added to cache.")
  {
  }

  /** The account activity is the URL's fragment, or 'Unknown activity.' without one. */
  lemma AccountRow(row: Row, loads: JsonLoads, fromTimeString: TimeStringFn)
    requires !EndsWith(row.requestKey, "plist") && StartsWith(row.requestKey, "http://account.zeobit.com")
    ensures ParseReceiverData(row, loads, fromTimeString).Ok?
    ensures ParseReceiverData(row, loads, fromTimeString).value.description == "Account Activity"
    ensures !Contains(row.requestKey, "#") ==>
      ParseReceiverData(row, loads, fromTimeString).value.text == Some("Unknown activity.")
  {
    assert !StartsWith(row.requestKey, "http://event.zeobit.com") by {
      assert row.requestKey[7] == 'a';
    }
  }

  /** An event URL's text is its query with '&' read as spaces. */
  lemma ZeobitEventRow(row: Row, pre: string, query: string, loads: JsonLoads, fromTimeString: TimeStringFn)
    requires !EndsWith(row.requestKey, "plist") && row.requestKey == pre + "?" + query
    requires StartsWith(pre, "http://event.zeobit.com") && Lacks(pre, '?')
    ensures ParseReceiverData(row, loads, fromTimeString).Ok?
    ensures ParseReceiverData(row, loads, fromTimeString).value.description == "MacKeeper Event"
    ensures ParseReceiverData(row, loads, fromTimeString).value.text == Some(ReplaceChar(query, '&', ' '))
  {
    var url := row.requestKey;
    assert url[..|"http://event.zeobit.com"|] == pre[..|"http://event.zeobit.com"|];
    forall j | 0 <= j < |pre| ensures !At(url, "?", j) {
      assert url[j..j + 1] == [pre[j]];
    }
    assert url[|pre|..|pre| + 1] == "?";
    AfterKey(pre, "?", query);
  }

  /** Any other URL gives 'MacKeeper Entry' with no text. */
  lemma OtherRow(row: Row, loads: JsonLoads, fromTimeString: TimeStringFn)
    requires CategoryOf(row.requestKey) == OtherUrl
    ensures ParseReceiverData(row, loads, fromTimeString) ==
      Ok(MacKeeperEvent(EventTimestamp(row.time, fromTimeString), AddedTime, "MacKeeper Entry", row.requestKey,
                        None, None, None, None, None, None))
  {
  }

  /** A support-chat row is described by 'Chat ' and its entry's label, with the entry's data. */
  lemma ChatRow(row: Row, loads: JsonLoads)
    requires CategoryOf(row.requestKey) == ChatUrl
    ensures var d := ExtractJQuery(JQueryText(row), loads);
      (RowData(row, loads).Ok? <==> ParseChatData(d, loads).Ok?) &&
      (RowData(row, loads).Ok? ==>
         RowData(row, loads).value.0 == "Chat " + ChatLabel(EntryType(d)) &&
         RowData(row, loads).value.1 == ChatEntry(d, loads).value.1)
  {
  }

  /**
   * The entry type of a chat row that the corrected event reports is lost
   * by the event as written, which reads it from a key never set.
   */
  lemma EventTypeLost(row: Row, loads: JsonLoads, fromTimeString: TimeStringFn)
    requires CategoryOf(row.requestKey) == ChatUrl
    requires ParseChatData(ExtractJQuery(JQueryText(row), loads), loads).Ok?
    ensures ParseReceiverData(row, loads, fromTimeString).Ok?
    ensures ParseReceiverData(row, loads, fromTimeString).value.eventType ==
      Some(EntryType(ExtractJQuery(JQueryText(row), loads)))
    ensures ParseReceiverDataAsWritten(row, loads, fromTimeString).Ok?
    ensures ParseReceiverDataAsWritten(row, loads, fromTimeString).value.eventType == None
  {
    ChatRow(row, loads);
  }
}
