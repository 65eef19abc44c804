/**
 * The l2tTLN output module: seven '|'-delimited fields per event (POSIX
 * time, source, host, user, description, time zone, notes), with every
 * '|' inside the free-text fields turned into a space. Host and user fall
 * back on what the storage file knows about the event's store.
 */
module L2tTln {
  import opened Common
  import opened Formatters
  import opened OutputStore
  import Timelib

  const DELIMITER: char := '|'
  const HEADER := "Time|Source|Host|User|Description|TZ|Notes\n"

  /** What EventBody does with one event: nothing, one line written, or an exception raised. */
  datatype Outcome = Skipped | Line(text: string) | Raised(error: Exc)

  /** CopyToPosix(event_object.timestamp): floor division of a number; anything else raises TypeError. */
  function PosixOf(v: Value): (r: Result<int>)
    ensures v.Int? ==> r == Ok(Timelib.CopyToPosix(v.i))
    ensures !v.Int? && !v.Bool? ==> r == Err(TypeError)
  {
    match v
    case Int(i) => Ok(Timelib.CopyToPosix(i))
    case Bool(b) => Ok(0)
    case _ => Err(TypeError)
  }

  /** The hostname field: the event's own when it is truthy, else (with a store) the host name of its store or ''. */
  function Host(store: Option<Store>, hostnames: map<int, string>, a: Attributes): Result<Value>
  {
    var hostname := GetAttr(a, "hostname", Str(""));
    if store.None? then Ok(hostname)
    else match StoreKey(a)
      case Err(x) => Err(x)
      case Ok(key) =>
        if Truthy(hostname) then Ok(hostname)
        else Ok(Str(match Lookup(hostnames, key) case Some(h) => h case None => ""))
  }

  /** The username field: the store's preprocessing object's name for it when it knows one, else the event's own. */
  function User(store: Option<Store>, preprocesses: map<int, StorageInfo>, a: Attributes): Result<Value>
  {
    var username := GetAttr(a, "username", Str(""));
    if store.None? then Ok(username)
    else match StoreKey(a)
      case Err(x) => Err(x)
      case Ok(key) =>
        match Lookup(preprocesses, key)
        case None => Ok(username)
        case Some(info) =>
          if UsernameById(info, username) != "-" then Ok(Str(UsernameById(info, username))) else Ok(username)
  }

  /** The notes field: the event's notes when truthy, else its display name and inode. */
  function Notes(a: Attributes): Value
  {
    var notes := GetAttr(a, "notes", Str(""));
    if Truthy(notes) then notes
    else Str("File: " + Text(GetAttr(a, "display_name", Str(""))) + " inode: " + Text(GetAttr(a, "inode", Str(""))))
  }

  /** value.replace(DELIMITER, ' '): only a string has replace. */
  function Cleaned(v: Value): (r: Result<string>)
    ensures r.Ok? <==> v.Str?
    ensures r.Ok? ==> r.value == ReplaceChar(v.s, DELIMITER, ' ')
  {
    if v.Str? then Ok(ReplaceChar(v.s, DELIMITER, ' ')) else Err(AttributeError)
  }

  /** The seven fields, in order. */
  function Fields(date: int, rendered: Rendered, host: string, user: string, zone: string, notes: string): seq<string>
  {
    [IntToStr(date), ReplaceChar(rendered.sourceShort, DELIMITER, ' '), host, user,
     ReplaceChar(rendered.message, DELIMITER, ' '), zone, notes]
  }

  /** EventBody, on the state Start left: the line of the event, or why there is none. */
  function Body(store: Option<Store>, hostnames: map<int, string>, preprocesses: map<int, StorageInfo>,
                zone: string, e: OutEvent): Outcome
  {
    var a := e.attributes;
    if "timestamp" !in a then Skipped
    else if e.formatter.None? then Raised(NoFormatterFound)
    else match PosixOf(a["timestamp"])
      case Err(x) => Raised(x)
      case Ok(date) =>
        match Host(store, hostnames, a)
        case Err(x) => Raised(x)
        case Ok(hostname) =>
          match User(store, preprocesses, a)
          case Err(x) => Raised(x)
          case Ok(username) =>
            match (Cleaned(hostname), Cleaned(username), Cleaned(Notes(a)))
            case (Ok(host), Ok(user), Ok(notes)) =>
              Line(Join(Fields(date, e.formatter.value, host, user, zone, notes), [DELIMITER]) + "\n")
            case _ => Raised(AttributeError)
  }

  /** The lines an outcome writes. */
  function Written(o: Outcome): seq<string>
  {
    if o.Line? then [o.text] else []
  }

  /** The exception an outcome leaves with. */
  function Escaped(o: Outcome): Option<Exc>
  {
    if o.Raised? then Some(o.error) else None
  }

  class L2ttln {
    const store: Option<Store>
    const zone: string
    var hostnames: map<int, string>
    var preprocesses: map<int, StorageInfo>
    /** The lines written to the file handle, in order. */
    var lines: seq<string>

    constructor(store: Option<Store>, zone: string)
      ensures this.store == store && this.zone == zone
      ensures hostnames == map[] && preprocesses == map[] && lines == []
    {
      this.store := store;
      this.zone := zone;
      hostnames := map[];
      preprocesses := map[];
      lines := [];
    }

    /** Start: the host names and the store map (upper bound included) when there is a store, then the header. */
    method Start()
      modifies this
      ensures hostnames == if store.Some? then store.value.hostnames else map[]
      ensures preprocesses == if store.Some? then Preprocesses(store.value.infos, true) else old(preprocesses)
      ensures lines == old(lines) + [HEADER]
    {
      hostnames := map[];
      if store.Some? {
        hostnames := store.value.hostnames;
        preprocesses := BuildPreprocesses(store.value.infos, true);
      }
      lines := lines + [HEADER];
    }

    /** EventBody: at most one line, built as Body says. */
    method EventBody(e: OutEvent) returns (error: Option<Exc>)
      modifies this
      ensures hostnames == old(hostnames) && preprocesses == old(preprocesses)
      ensures lines == old(lines) + Written(Body(store, hostnames, preprocesses, zone, e))
      ensures error == Escaped(Body(store, hostnames, preprocesses, zone, e))
    {
      var a := e.attributes;
      if "timestamp" !in a {
        return None;
      }
      if e.formatter.None? {
        return Some(NoFormatterFound);
      }
      var rendered := e.formatter.value;
      var date := PosixOf(a["timestamp"]);
      if date.Err? {
        return Some(date.exc);
      }
      var hostname := GetAttr(a, "hostname", Str(""));
      var username := GetAttr(a, "username", Str(""));
      if store.Some? {
        var key := StoreKey(a);
        if key.Err? {
          return Some(key.exc);
        }
        if !Truthy(hostname) {
          var known := Lookup(hostnames, key.value);
          hostname := Str(if known.Some? then known.value else "");
        }
        var preObj := Lookup(preprocesses, key.value);
        if preObj.Some? {
          var checkUser := UsernameById(preObj.value, username);
          if checkUser != "-" {
            username := Str(checkUser);
          }
        }
      }
      assert Host(store, hostnames, a) == Ok(hostname);
      assert User(store, preprocesses, a) == Ok(username);
      var notes := Notes(a);
      if !hostname.Str? || !username.Str? || !notes.Str? {
        return Some(AttributeError);
      }
      var fields := Fields(date.value, rendered, ReplaceChar(hostname.s, DELIMITER, ' '),
                           ReplaceChar(username.s, DELIMITER, ' '), zone, ReplaceChar(notes.s, DELIMITER, ' '));
      lines := lines + [Join(fields, [DELIMITER]) + "\n"];
      return None;
    }

    /** WriteEvent: EventBody, with a missing formatter logged instead of raised. */
    method WriteEvent(e: OutEvent) returns (error: Option<Exc>)
      modifies this
      ensures hostnames == old(hostnames) && preprocesses == old(preprocesses)
      ensures lines == old(lines) + Written(Body(store, hostnames, preprocesses, zone, e))
      ensures error == if Escaped(Body(store, hostnames, preprocesses, zone, e)) == Some(NoFormatterFound) then None
                       else Escaped(Body(store, hostnames, preprocesses, zone, e))
    {
      error := EventBody(e);
      if error == Some(NoFormatterFound) {
        error := None;
      }
    }
  }

  // ---------------------------------------------------------------------
  // Properties

  /** An event without a timestamp writes nothing and raises nothing. */
  lemma NoTimestampSkipped(store: Option<Store>, hostnames: map<int, string>, preprocesses: map<int, StorageInfo>,
                           zone: string, e: OutEvent)
    requires "timestamp" !in e.attributes
    ensures Body(store, hostnames, preprocesses, zone, e) == Skipped
  {
  }

  /** A timed event without a formatter raises NoFormatterFound and writes nothing. */
  lemma NoFormatterRaises(store: Option<Store>, hostnames: map<int, string>, preprocesses: map<int, StorageInfo>,
                          zone: string, e: OutEvent)
    requires "timestamp" in e.attributes && e.formatter.None?
    ensures Body(store, hostnames, preprocesses, zone, e) == Raised(NoFormatterFound)
    ensures Written(Body(store, hostnames, preprocesses, zone, e)) == []
  {
  }

  /** The decimal text of a number has no '|'. */
  lemma IntTextLacksDelimiter(n: int)
    ensures Lacks(IntToStr(n), DELIMITER)
  {
    var m: nat := if n < 0 then -n else n;
    assert forall i :: 0 <= i < |NatToStr(m)| ==> '0' <= NatToStr(m)[i] <= '9';
  }

  /** A string with every '|' replaced has no '|'. */
  lemma CleanedLacksDelimiter(s: string)
    ensures Lacks(ReplaceChar(s, DELIMITER, ' '), DELIMITER)
  {
  }

  /**
   * A written line ends in a newline and, when the time zone has no '|',
   * splits at '|' into exactly the seven fields: the POSIX seconds of the
   * timestamp, the source, host, user, message and notes with their '|'
   * replaced, and the zone.
   */
  lemma SevenColumns(store: Option<Store>, hostnames: map<int, string>, preprocesses: map<int, StorageInfo>,
                     zone: string, e: OutEvent)
    requires Body(store, hostnames, preprocesses, zone, e).Line? && Lacks(zone, DELIMITER)
    ensures var t := Body(store, hostnames, preprocesses, zone, e).text;
      var a := e.attributes;
      t != [] && t[|t| - 1] == '\n' &&
      Split(t[..|t| - 1], [DELIMITER]) ==
        [IntToStr(PosixOf(a["timestamp"]).value),
         ReplaceChar(e.formatter.value.sourceShort, DELIMITER, ' '),
         ReplaceChar(Host(store, hostnames, a).value.s, DELIMITER, ' '),
         ReplaceChar(User(store, preprocesses, a).value.s, DELIMITER, ' '),
         ReplaceChar(e.formatter.value.message, DELIMITER, ' '),
         zone,
         ReplaceChar(Notes(a).s, DELIMITER, ' ')]
  {
    var a := e.attributes;
    var fields := Fields(PosixOf(a["timestamp"]).value, e.formatter.value,
                         ReplaceChar(Host(store, hostnames, a).value.s, DELIMITER, ' '),
                         ReplaceChar(User(store, preprocesses, a).value.s, DELIMITER, ' '),
                         zone, ReplaceChar(Notes(a).s, DELIMITER, ' '));
    var t := Body(store, hostnames, preprocesses, zone, e).text;
    assert t == Join(fields, [DELIMITER]) + "\n";
    assert t[..|t| - 1] == Join(fields, [DELIMITER]);
    IntTextLacksDelimiter(PosixOf(a["timestamp"]).value);
    SplitJoin(fields, DELIMITER);
  }

  /** The time field is whole seconds, rounded down, of a microsecond timestamp. */
  lemma TimeField(t: int)
    ensures PosixOf(Int(t)) == Ok(t / 1_000_000)
    ensures PosixOf(Int(t)).value * 1_000_000 <= t < (PosixOf(Int(t)).value + 1) * 1_000_000
    ensures PyInt(IntToStr(PosixOf(Int(t)).value), 10) == Some(PosixOf(Int(t)).value)
  {
    IntToStrRoundTrip(PosixOf(Int(t)).value);
  }

  /** Empty or missing notes become the display name and inode; truthy notes stay. */
  lemma NotesDefault(a: Attributes)
    ensures !Truthy(GetAttr(a, "notes", Str(""))) ==>
      Notes(a) == Str("File: " + Text(GetAttr(a, "display_name", Str(""))) + " inode: " + Text(GetAttr(a, "inode", Str(""))))
    ensures Truthy(GetAttr(a, "notes", Str(""))) ==> Notes(a) == a["notes"]
    ensures "notes" !in a && "display_name" in a && a["display_name"].Str? && "inode" in a && a["inode"].Int? ==>
      Notes(a) == Str("File: " + a["display_name"].s + " inode: " + IntToStr(a["inode"].i))
  {
  }

  /** With a store, an event without a hostname takes its store's host name, or '' when the store has none. */
  lemma HostFallback(s: Store, hostnames: map<int, string>, a: Attributes, n: int)
    requires !Truthy(GetAttr(a, "hostname", Str(""))) && "store_number" in a && a["store_number"] == Int(n)
    ensures Host(Some(s), hostnames, a) == Ok(Str(if n in hostnames then hostnames[n] else ""))
  {
  }

  /** With a store, a truthy hostname stays; without one, the event's own hostname is kept as it is. */
  lemma HostKept(store: Option<Store>, hostnames: map<int, string>, a: Attributes)
    requires store.None? || StoreKey(a).Ok?
    requires store.None? || Truthy(GetAttr(a, "hostname", Str("")))
    ensures Host(store, hostnames, a) == Ok(GetAttr(a, "hostname", Str("")))
  {
  }

  /**
   * After Start, the user field of an event of store n is the name that
   * the last storage information covering n (its upper bound included)
   * gives the event's username, when that is not '-'.
   */
  lemma UserFromStore(s: Store, a: Attributes, n: int)
    requires "store_number" in a && a["store_number"] == Int(n)
    ensures var pre := Preprocesses(s.infos, true);
      var username := GetAttr(a, "username", Str(""));
      User(Some(s), pre, a) ==
        if n in pre && UsernameById(pre[n], username) != "-" then Ok(Str(UsernameById(pre[n], username)))
        else Ok(username)
    ensures n in Preprocesses(s.infos, true) <==> exists i :: 0 <= i < |s.infos| && Covers(s.infos[i], n, true)
  {
    PreprocessLookup(s.infos, true, n);
  }

  /** A field that is not a string has no replace: the event raises AttributeError. */
  lemma NonStringHost(hostnames: map<int, string>, preprocesses: map<int, StorageInfo>, zone: string, e: OutEvent, n: int)
    requires "timestamp" in e.attributes && e.attributes["timestamp"] == Int(n) && e.formatter.Some?
    requires "hostname" in e.attributes && e.attributes["hostname"].Int?
    ensures Body(None, hostnames, preprocesses, zone, e) == Raised(AttributeError)
  {
  }

  /** A timestamp that is not a number raises TypeError. */
  lemma TextTimestamp(store: Option<Store>, hostnames: map<int, string>, preprocesses: map<int, StorageInfo>,
                      zone: string, e: OutEvent)
    requires "timestamp" in e.attributes && e.attributes["timestamp"].Str? && e.formatter.Some?
    ensures Body(store, hostnames, preprocesses, zone, e) == Raised(TypeError)
  {
  }
}
