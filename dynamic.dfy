/**
 * The dynamic output module: a row of chosen fields per event, joined by
 * a separator. A field with special handling is computed by its parse
 * method; any other field is the event's attribute or '-'. Every
 * occurrence of the separator inside a value becomes a space.
 */
module Dynamic {
  import opened Common
  import opened Formatters
  import opened OutputStore

  const DEFAULT_SEPARATOR := ","

  /** The fields written when the filter names none. */
  const DEFAULT_FIELDS: seq<string> := ["datetime", "timestamp_desc", "source", "source_long", "message", "parser",
                                        "display_name", "tag", "store_number", "store_index"]

  /** The output filter: the fields it selects and its separator. */
  datatype Filter = Filter(fields: seq<string>, separator: string)

  /** The parse methods SPECIAL_HANDLING names. */
  datatype Handler =
    | ParseDate | ParseDateTime | ParseMessage | ParseMessageShort | ParseHostname | ParseInode | ParseMacb
    | ParseSourceShort | ParseSource | ParseTag | ParseTime | ParseZone | ParseTimestampDescription | ParseUsername

  /**
   * What the time zone conversion and the legacy MACB helper give for the
   * event; they are inputs of the model.
   */
  datatype Times = Times(date: string, dateTime: string, time: string, macb: string)

  /** SPECIAL_HANDLING.get(field). */
  function SpecialHandling(field: string): Option<Handler>
  {
    match field
    case "date" => Some(ParseDate)
    case "datetime" => Some(ParseDateTime)
    case "description" => Some(ParseMessage)
    case "description_short" => Some(ParseMessageShort)
    case "host" => Some(ParseHostname)
    case "hostname" => Some(ParseHostname)
    case "inode" => Some(ParseInode)
    case "macb" => Some(ParseMacb)
    case "message" => Some(ParseMessage)
    case "message_short" => Some(ParseMessageShort)
    case "source" => Some(ParseSourceShort)
    case "sourcetype" => Some(ParseSource)
    case "source_long" => Some(ParseSource)
    case "tag" => Some(ParseTag)
    case "time" => Some(ParseTime)
    case "timezone" => Some(ParseZone)
    case "type" => Some(ParseTimestampDescription)
    case "user" => Some(ParseUsername)
    case "username" => Some(ParseUsername)
    case "zone" => Some(ParseZone)
    case _ => None
  }

  /** ParseTag: '-' without a tag, else its tags joined by spaces; an event tag is modelled by its list of tags. */
  function Tag(a: Attributes): (r: Result<Value>)
    ensures !GetAttr(a, "tag", Null).Strs? && !Truthy(GetAttr(a, "tag", Null)) ==> r == Ok(Str("-"))
    ensures "tag" in a && a["tag"].Strs? ==> r == Ok(Str(Join(a["tag"].strs, " ")))
  {
    var tag := GetAttr(a, "tag", Null);
    if tag.Strs? then Ok(Str(Join(tag.strs, " ")))
    else if !Truthy(tag) then Ok(Str("-"))
    else Err(AttributeError)
  }

  /** ParseInode: the inode, or the path specification's image inode when the inode is '-'. */
  function Inode(e: OutEvent): Value
  {
    var inode := GetAttr(e.attributes, "inode", Str("-"));
    if inode == Str("-") && e.pathspecImageInode.Some? then e.pathspecImageInode.value else inode
  }

  /** ParseHostname: the event's hostname, or with a store and none of its own, its store's host name or '-'. */
  function Hostname(store: Option<Store>, hostnames: map<int, string>, a: Attributes): Result<Value>
  {
    var hostname := GetAttr(a, "hostname", Str(""));
    if store.Some? && !Truthy(hostname) then
      match StoreKey(a)
      case Err(x) => Err(x)
      case Ok(key) => Ok(Str(match Lookup(hostnames, key) case Some(h) => h case None => "-"))
    else Ok(hostname)
  }

  /**
   * ParseUsername. With a store, an event of a store no range covers
   * reads GetUsernameById of None (AttributeError); without a store, the
   * user_sid branch reads pre_obj before any assignment (UnboundLocalError).
   */
  function Username(store: Option<Store>, preprocesses: map<int, StorageInfo>, a: Attributes): Result<Value>
  {
    var username := GetAttr(a, "username", Str("-"));
    if store.None? then
      if username == Str("-") && "user_sid" in a then Err(UnboundLocalError) else Ok(username)
    else match StoreKey(a)
      case Err(x) => Err(x)
      case Ok(key) =>
        match Lookup(preprocesses, key)
        case None => Err(AttributeError)
        case Some(info) =>
          var checked := if UsernameById(info, username) != "-" then Str(UsernameById(info, username)) else username;
          if checked == Str("-") && "user_sid" in a then Ok(Str(UsernameById(info, a["user_sid"]))) else Ok(checked)
  }

  /** The parse methods that need the event's formatter. */
  predicate NeedsFormatter(h: Handler)
  {
    h == ParseMessage || h == ParseMessageShort || h == ParseSource || h == ParseSourceShort
  }

  /** The parse methods that read event_object.timestamp. */
  predicate NeedsTimestamp(h: Handler)
  {
    h == ParseDate || h == ParseDateTime || h == ParseTime
  }

  /** What one parse method gives for the event. */
  function Handle(h: Handler, store: Option<Store>, hostnames: map<int, string>, preprocesses: map<int, StorageInfo>,
                  zone: string, e: OutEvent, times: Times): (r: Result<Value>)
    ensures NeedsFormatter(h) && e.formatter.None? ==> r == Err(NoFormatterFound)
    ensures NeedsTimestamp(h) && "timestamp" !in e.attributes ==> r == Err(AttributeError)
  {
    var a := e.attributes;
    if NeedsFormatter(h) && e.formatter.None? then Err(NoFormatterFound)
    else if NeedsTimestamp(h) && "timestamp" !in a then Err(AttributeError)
    else match h
      case ParseDate => Ok(Str(times.date))
      case ParseDateTime => Ok(Str(times.dateTime))
      case ParseTime => Ok(Str(times.time))
      case ParseMacb => Ok(Str(times.macb))
      case ParseMessage => Ok(Str(e.formatter.value.message))
      case ParseMessageShort => Ok(Str(e.formatter.value.messageShort))
      case ParseSource => Ok(Str(e.formatter.value.sourceLong))
      case ParseSourceShort => Ok(Str(e.formatter.value.sourceShort))
      case ParseHostname => Hostname(store, hostnames, a)
      case ParseInode => Ok(Inode(e))
      case ParseTag => Tag(a)
      case ParseZone => Ok(Str(zone))
      case ParseTimestampDescription => Ok(GetAttr(a, "timestamp_desc", Str("-")))
      case ParseUsername => Username(store, preprocesses, a)
  }

  /** The value of one field: its parse method's when it has one, else the attribute or '-'. */
  function Cell(field: string, store: Option<Store>, hostnames: map<int, string>, preprocesses: map<int, StorageInfo>,
                zone: string, e: OutEvent, times: Times): Result<Value>
  {
    match SpecialHandling(field)
    case Some(h) => Handle(h, store, hostnames, preprocesses, zone, e, times)
    case None => Ok(GetAttr(e.attributes, field, Str("-")))
  }

  /** The value of each field for one event. */
  function ValueOf(store: Option<Store>, hostnames: map<int, string>, preprocesses: map<int, StorageInfo>,
                  zone: string, e: OutEvent, times: Times): string -> Result<Value>
  {
    field => Cell(field, store, hostnames, preprocesses, zone, e, times)
  }

  /** The values of some fields, computed left to right; the first exception stops it. */
  function Collect(fields: seq<string>, cell: string -> Result<Value>): Result<seq<Value>>
  {
    if fields == [] then Ok([])
    else match Collect(fields[..|fields| - 1], cell)
      case Err(x) => Err(x)
      case Ok(row) =>
        match cell(fields[|fields| - 1])
        case Err(x) => Err(x)
        case Ok(v) => Ok(row + [v])
  }

  /** The row of some fields for one event. */
  function Cells(fields: seq<string>, store: Option<Store>, hostnames: map<int, string>, preprocesses: map<int, StorageInfo>,
                 zone: string, e: OutEvent, times: Times): Result<seq<Value>>
  {
    Collect(fields, ValueOf(store, hostnames, preprocesses, zone, e, times))
  }

  /** Once a prefix of the fields fails, every longer prefix fails the same way. */
  lemma {:induction false} CollectErrorPersists(fields: seq<string>, k: nat, cell: string -> Result<Value>)
    requires 0 < k <= |fields| && Collect(fields[..k], cell).Err?
    ensures Collect(fields, cell) == Collect(fields[..k], cell)
    decreases |fields| - k
  {
    if k < |fields| {
      assert fields[..k + 1][..k] == fields[..k];
      CollectErrorPersists(fields, k + 1, cell);
    } else {
      assert fields[..k] == fields;
    }
  }

  /** Once a prefix of the fields fails, every longer prefix fails the same way. */
  lemma CellsErrorPersists(fields: seq<string>, k: nat, store: Option<Store>, hostnames: map<int, string>,
                           preprocesses: map<int, StorageInfo>, zone: string, e: OutEvent, times: Times)
    requires 0 < k <= |fields|
    requires Cells(fields[..k], store, hostnames, preprocesses, zone, e, times).Err?
    ensures Cells(fields, store, hostnames, preprocesses, zone, e, times) == Cells(fields[..k], store, hostnames, preprocesses, zone, e, times)
  {
    CollectErrorPersists(fields, k, ValueOf(store, hostnames, preprocesses, zone, e, times));
  }

  /** A space after every character. */
  function SpaceAfterEach(s: string): (r: string)
    ensures |r| == 2 * |s|
  {
    if s == [] then [] else [s[0], ' '] + SpaceAfterEach(s[1..])
  }

  /** text.replace(separator, ' '); an empty separator matches before every character and at the end. */
  function Escape(text: string, separator: string): string
  {
    if separator == [] then " " + SpaceAfterEach(text) else Replace(text, separator, " ")
  }

  /** The escaped texts of a row's values. */
  function Escaped(row: seq<Value>, separator: string): (r: seq<string>)
    ensures |r| == |row|
  {
    seq(|row|, i requires 0 <= i < |row| => Escape(Text(row[i]), separator))
  }

  /** The line of a row. */
  function RowLine(row: seq<Value>, separator: string): string
  {
    Join(Escaped(row, separator), separator) + "\n"
  }

  class Dynamic {
    const filter: Option<Filter>
    const store: Option<Store>
    const zone: string
    var fields: seq<string>
    var separator: string
    var hostnames: map<int, string>
    var preprocesses: map<int, StorageInfo>
    /** The lines written to the file handle, in order. */
    var lines: seq<string>

    constructor(filter: Option<Filter>, store: Option<Store>, zone: string)
      ensures this.filter == filter && this.store == store && this.zone == zone
      ensures fields == [] && separator == DEFAULT_SEPARATOR && hostnames == map[] && preprocesses == map[] && lines == []
    {
      this.filter := filter;
      this.store := store;
      this.zone := zone;
      fields := [];
      separator := DEFAULT_SEPARATOR;
      hostnames := map[];
      preprocesses := map[];
      lines := [];
    }

    /**
     * Start: the filter's fields and separator (the default fields when it
     * names none, ',' without a filter), the store map with an exclusive
     * upper bound, and the header of the field names.
     */
    method Start()
      modifies this
      ensures fields == if filter.Some? && filter.value.fields != [] then filter.value.fields else DEFAULT_FIELDS
      ensures separator == if filter.Some? then filter.value.separator else DEFAULT_SEPARATOR
      ensures store.Some? ==> hostnames == store.value.hostnames && preprocesses == Preprocesses(store.value.infos, false)
      ensures store.None? ==> hostnames == old(hostnames) && preprocesses == old(preprocesses)
      ensures lines == old(lines) + [Join(fields, separator) + "\n"]
    {
      var selected, sep := Selected(filter);
      StoreMaps();
      fields, separator := selected, sep;
      WriteHeader();
    }

    /** The store maps of Start: the host names, and the store numbers up to each range's upper bound, excluded. */
    method StoreMaps()
      modifies this
      ensures fields == old(fields) && separator == old(separator) && lines == old(lines)
      ensures store.Some? ==> hostnames == store.value.hostnames && preprocesses == Preprocesses(store.value.infos, false)
      ensures store.None? ==> hostnames == old(hostnames) && preprocesses == old(preprocesses)
    {
      if store.Some? {
        hostnames := store.value.hostnames;
        preprocesses := BuildPreprocesses(store.value.infos, false);
      }
    }

    /** The last step of Start: the header, the field names joined by the separator. */
    method WriteHeader()
      modifies this
      ensures fields == old(fields) && separator == old(separator)
      ensures hostnames == old(hostnames) && preprocesses == old(preprocesses)
      ensures lines == old(lines) + [Join(fields, separator) + "\n"]
    {
      lines := lines + [Join(fields, separator) + "\n"];
    }

    /** The first half of Start: the fields and separator the filter selects. */
    static method Selected(filter: Option<Filter>) returns (fields: seq<string>, separator: string)
      ensures fields == if filter.Some? && filter.value.fields != [] then filter.value.fields else DEFAULT_FIELDS
      ensures separator == if filter.Some? then filter.value.separator else DEFAULT_SEPARATOR
    {
      fields := [];
      if filter.Some? {
        fields := filter.value.fields;
        separator := filter.value.separator;
      } else {
        separator := DEFAULT_SEPARATOR;
      }
      if fields == [] {
        fields := DEFAULT_FIELDS;
      }
    }

    /** EventBody: the row of the fields, then its line; an exception from a field stops it before anything is written. */
    method EventBody(e: OutEvent, times: Times) returns (error: Option<Exc>)
      modifies this
      ensures fields == old(fields) && separator == old(separator)
      ensures hostnames == old(hostnames) && preprocesses == old(preprocesses)
      ensures match Cells(fields, store, hostnames, preprocesses, zone, e, times)
        case Ok(row) => error.None? && lines == old(lines) + [RowLine(row, separator)]
        case Err(x) => error == Some(x) && lines == old(lines)
    {
      var row := Row(e, times);
      if row.Err? {
        return Some(row.exc);
      }
      lines := lines + [RowLine(row.value, separator)];
      return None;
    }

    /** The loop of EventBody: the value of every field in turn, stopping at the first exception. */
    method Row(e: OutEvent, times: Times) returns (r: Result<seq<Value>>)
      ensures r == Cells(fields, store, hostnames, preprocesses, zone, e, times)
    {
      var row := [];
      var i := 0;
      while i < |fields|
        invariant 0 <= i <= |fields|
        invariant Cells(fields[..i], store, hostnames, preprocesses, zone, e, times) == Ok(row)
      {
        var value := CellOf(fields[i], e, times);
        assert fields[..i + 1][..i] == fields[..i] && fields[..i + 1][i] == fields[i];
        if value.Err? {
          assert Cells(fields[..i + 1], store, hostnames, preprocesses, zone, e, times) == Err(value.exc);
          CellsErrorPersists(fields, i + 1, store, hostnames, preprocesses, zone, e, times);
          return Err(value.exc);
        }
        row := row + [value.value];
        i := i + 1;
      }
      assert fields[..i] == fields;
      return Ok(row);
    }

    /** The value of one field for the event. */
    method CellOf(field: string, e: OutEvent, times: Times) returns (r: Result<Value>)
      ensures r == Cell(field, store, hostnames, preprocesses, zone, e, times)
    {
      var hasCallBack := SpecialHandling(field);
      if hasCallBack.Some? {
        r := Handle(hasCallBack.value, store, hostnames, preprocesses, zone, e, times);
      } else {
        r := Ok(GetAttr(e.attributes, field, Str("-")));
      }
    }

    /** WriteEvent: EventBody, with a missing formatter logged instead of raised. */
    method WriteEvent(e: OutEvent, times: Times) returns (error: Option<Exc>)
      modifies this
      ensures fields == old(fields) && separator == old(separator)
      ensures hostnames == old(hostnames) && preprocesses == old(preprocesses)
      ensures match Cells(fields, store, hostnames, preprocesses, zone, e, times)
        case Ok(row) => error.None? && lines == old(lines) + [RowLine(row, separator)]
        case Err(x) => error == (if x == NoFormatterFound then None else Some(x)) && lines == old(lines)
    {
      error := EventBody(e, times);
      if error == Some(NoFormatterFound) {
        error := None;
      }
    }
  }

  // ---------------------------------------------------------------------
  // Properties

  /** Collect succeeds exactly when every field has a value. */
  lemma {:induction false} CollectOk(fields: seq<string>, cell: string -> Result<Value>)
    ensures Collect(fields, cell).Ok? <==> forall i :: 0 <= i < |fields| ==> cell(fields[i]).Ok?
  {
    if fields != [] {
      var prefix := fields[..|fields| - 1];
      CollectOk(prefix, cell);
      assert forall i :: 0 <= i < |prefix| ==> prefix[i] == fields[i];
    }
  }

  /** What Collect builds holds one value per field, in order. */
  lemma {:induction false} CollectRow(fields: seq<string>, cell: string -> Result<Value>)
    requires Collect(fields, cell).Ok?
    ensures var row := Collect(fields, cell).value;
      |row| == |fields| && forall i :: 0 <= i < |fields| ==> cell(fields[i]).Ok? && row[i] == cell(fields[i]).value
  {
    if fields != [] {
      var prefix := fields[..|fields| - 1];
      CollectRow(prefix, cell);
      assert forall i :: 0 <= i < |prefix| ==> prefix[i] == fields[i];
    }
  }

  /** A failed Collect fails with the exception of its first field without a value. */
  lemma {:induction false} CollectError(fields: seq<string>, cell: string -> Result<Value>, x: Exc)
    requires Collect(fields, cell) == Err(x)
    ensures exists i :: 0 <= i < |fields| && cell(fields[i]) == Err(x) && forall j :: 0 <= j < i ==> cell(fields[j]).Ok?
  {
    var prefix := fields[..|fields| - 1];
    assert forall i :: 0 <= i < |prefix| ==> prefix[i] == fields[i];
    match Collect(prefix, cell)
    case Err(y) =>
      CollectError(prefix, cell, x);
    case Ok(_) =>
      CollectOk(prefix, cell);
      assert cell(fields[|prefix|]) == Err(x);
  }

  /** When every field before the k-th has a value and the k-th has none, Collect fails with the k-th's exception. */
  lemma CollectFirstError(fields: seq<string>, cell: string -> Result<Value>, k: nat)
    requires k < |fields| && cell(fields[k]).Err?
    requires forall j :: 0 <= j < k ==> cell(fields[j]).Ok?
    ensures Collect(fields, cell) == Err(cell(fields[k]).exc)
  {
    var prefix := fields[..k];
    assert forall j :: 0 <= j < k ==> prefix[j] == fields[j];
    CollectOk(prefix, cell);
    assert fields[..k + 1][..k] == prefix && fields[..k + 1][k] == fields[k];
    CollectErrorPersists(fields, k + 1, cell);
  }

  /** A row is built exactly when every field has a value. */
  lemma CellsOk(fields: seq<string>, store: Option<Store>, hostnames: map<int, string>,
                preprocesses: map<int, StorageInfo>, zone: string, e: OutEvent, times: Times)
    ensures Cells(fields, store, hostnames, preprocesses, zone, e, times).Ok? <==> forall i :: 0 <= i < |fields| ==> Cell(fields[i], store, hostnames, preprocesses, zone, e, times).Ok?
  {
    CollectOk(fields, ValueOf(store, hostnames, preprocesses, zone, e, times));
  }

  /** A built row holds one value per field, in order. */
  lemma CellsRow(fields: seq<string>, store: Option<Store>, hostnames: map<int, string>,
                 preprocesses: map<int, StorageInfo>, zone: string, e: OutEvent, times: Times)
    requires Cells(fields, store, hostnames, preprocesses, zone, e, times).Ok?
    ensures var row := Cells(fields, store, hostnames, preprocesses, zone, e, times).value;
      |row| == |fields| &&
      forall i :: 0 <= i < |fields| ==> Cell(fields[i], store, hostnames, preprocesses, zone, e, times).Ok? && row[i] == Cell(fields[i], store, hostnames, preprocesses, zone, e, times).value
  {
    CollectRow(fields, ValueOf(store, hostnames, preprocesses, zone, e, times));
  }

  /** A failed row raises the exception of its first field without a value. */
  lemma CellsError(fields: seq<string>, store: Option<Store>, hostnames: map<int, string>,
                   preprocesses: map<int, StorageInfo>, zone: string, e: OutEvent, times: Times, x: Exc)
    requires Cells(fields, store, hostnames, preprocesses, zone, e, times) == Err(x)
    ensures exists i :: 0 <= i < |fields| && Cell(fields[i], store, hostnames, preprocesses, zone, e, times) == Err(x) &&
                        forall j :: 0 <= j < i ==> Cell(fields[j], store, hostnames, preprocesses, zone, e, times).Ok?
  {
    CollectError(fields, ValueOf(store, hostnames, preprocesses, zone, e, times), x);
  }

  /** The texts of a row, escaped for a one-character separator other than a space, do not contain it. */
  lemma EscapedLacks(row: seq<Value>, c: char)
    requires c != ' '
    ensures forall i :: 0 <= i < |row| ==> Lacks(Escaped(row, [c])[i], c)
  {
    forall i | 0 <= i < |row|
      ensures Lacks(Escaped(row, [c])[i], c)
    {
      NoSepLeft(Text(row[i]), [c]);
      NotContainsChar(Escape(Text(row[i]), [c]), c);
    }
  }

  /**
   * With a one-character separator other than a space, a line splits back
   * into exactly one column per value: the value's text with every
   * separator replaced by a space.
   */
  lemma RowColumns(row: seq<Value>, c: char)
    requires row != [] && c != ' '
    ensures var line := RowLine(row, [c]);
      line[|line| - 1] == '\n' && Split(line[..|line| - 1], [c]) == Escaped(row, [c])
    ensures |Split(RowLine(row, [c])[..|RowLine(row, [c])| - 1], [c])| == |row|
  {
    var line := RowLine(row, [c]);
    assert line[..|line| - 1] == Join(Escaped(row, [c]), [c]);
    EscapedLacks(row, c);
    SplitJoin(Escaped(row, [c]), c);
  }

  /** A field without special handling is the event's attribute of that name, or '-' when it has none. */
  lemma PlainField(field: string, store: Option<Store>, hostnames: map<int, string>,
                   preprocesses: map<int, StorageInfo>, zone: string, e: OutEvent, times: Times)
    requires field in ["timestamp_desc", "parser", "display_name", "store_number", "store_index", "filename"]
    ensures Cell(field, store, hostnames, preprocesses, zone, e, times) ==
      Ok(if field in e.attributes then e.attributes[field] else Str("-"))
  {
    NotSpecial(field);
  }

  /** The default fields that are read straight from the event have no parse method. */
  lemma NotSpecial(field: string)
    requires field in ["timestamp_desc", "parser", "display_name", "store_number", "store_index", "filename"]
    ensures SpecialHandling(field) == None
  {
  }

  /** ParseDateTime: an event with a timestamp gets the date and time text. */
  lemma DateTimeCell(store: Option<Store>, hostnames: map<int, string>,
                     preprocesses: map<int, StorageInfo>, zone: string, e: OutEvent, times: Times)
    requires "timestamp" in e.attributes
    ensures Cell("datetime", store, hostnames, preprocesses, zone, e, times) == Ok(Str(times.dateTime))
  {
  }

  /** ParseSourceShort: the 'source' field needs the event's formatter. */
  lemma SourceCellWithoutFormatter(store: Option<Store>, hostnames: map<int, string>,
                                   preprocesses: map<int, StorageInfo>, zone: string, e: OutEvent, times: Times)
    requires e.formatter.None?
    ensures Cell("source", store, hostnames, preprocesses, zone, e, times) == Err(NoFormatterFound)
  {
  }

  /** ParseInode: a real inode stays; '-' or no inode gives the path specification's image inode when there is one. */
  lemma InodeFallback(e: OutEvent)
    ensures GetAttr(e.attributes, "inode", Str("-")) != Str("-") ==> Inode(e) == e.attributes["inode"]
    ensures GetAttr(e.attributes, "inode", Str("-")) == Str("-") ==>
      Inode(e) == if e.pathspecImageInode.Some? then e.pathspecImageInode.value else Str("-")
  {
  }

  /** With a store, an event without a hostname of its own gets its store's host name, or '-'. */
  lemma HostnameFallback(s: Store, hostnames: map<int, string>, a: Attributes, n: int)
    requires !Truthy(GetAttr(a, "hostname", Str(""))) && "store_number" in a && a["store_number"] == Int(n)
    ensures Hostname(Some(s), hostnames, a) == Ok(Str(if n in hostnames then hostnames[n] else "-"))
  {
  }

  /**
   * ParseUsername's failure paths, as written: with a store, an event of a
   * store no range covers raises AttributeError; without one, an event
   * with a user_sid but no username raises UnboundLocalError.
   */
  lemma UsernameFailures(s: Store, preprocesses: map<int, StorageInfo>, a: Attributes, n: int)
    ensures "store_number" in a && a["store_number"] == Int(n) && n !in preprocesses ==>
      Username(Some(s), preprocesses, a) == Err(AttributeError)
    ensures "username" !in a && "user_sid" in a ==> Username(None, preprocesses, a) == Err(UnboundLocalError)
  {
  }

  /** After Start, the store of an event is covered by a range up to, but not including, its upper bound. */
  lemma UsernameFromStore(s: Store, a: Attributes, n: int)
    requires "store_number" in a && a["store_number"] == Int(n)
    ensures Username(Some(s), Preprocesses(s.infos, false), a).Ok? ==>
      exists i :: 0 <= i < |s.infos| && Covers(s.infos[i], n, false)
  {
    PreprocessLookup(s.infos, false, n);
  }

  /** With the default fields and no formatter, the row stops at 'source' with NoFormatterFound, which WriteEvent logs. */
  lemma DefaultRowWithoutFormatter(store: Option<Store>, hostnames: map<int, string>,
                                   preprocesses: map<int, StorageInfo>, zone: string, e: OutEvent, times: Times)
    requires "timestamp" in e.attributes && e.formatter.None?
    ensures Cells(DEFAULT_FIELDS, store, hostnames, preprocesses, zone, e, times) == Err(NoFormatterFound)
  {
    var f, cell := DEFAULT_FIELDS, ValueOf(store, hostnames, preprocesses, zone, e, times);
    assert f[0] == "datetime" && f[1] == "timestamp_desc" && f[2] == "source";
    DateTimeCell(store, hostnames, preprocesses, zone, e, times);
    PlainField(f[1], store, hostnames, preprocesses, zone, e, times);
    SourceCellWithoutFormatter(store, hostnames, preprocesses, zone, e, times);
    CollectFirstError(f, cell, 2);
  }
}
