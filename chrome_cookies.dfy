/**
 * The Chrome cookies SQLite plugin: each row of the cookies table gives a
 * creation, an access and (when the cookie expires) an expiry event, and
 * the cookie plugins' events for the row get the row's host, URL and flags.
 */
module ChromeCookies {
  import opened Common
  import opened Timelib
  import opened Formatters

  /** A row of the cookies query; the flag columns are SQLite integers. */
  datatype CookieRow = CookieRow(
    creationUtc: int, hostKey: string, name: string, value: string, path: string,
    expiresUtc: int, secure: int, httponly: int, lastAccessUtc: int, hasExpires: int,
    persistent: int)

  /** CREATION_TIME, ACCESS_TIME and 'Cookie Expires'. */
  datatype TimeDesc = CreationTime | AccessTime | CookieExpires

  /** ChromeCookieEvent: a WebKit time event with the cookie's attributes. */
  datatype ChromeCookieEvent = ChromeCookieEvent(
    timestamp: int, timestampDesc: TimeDesc, host: string, cookieName: string, data: string,
    path: string, secure: bool, httponly: bool, persistent: bool, url: string)

  /** The host without one leading '.'. */
  function StripDot(host: string): string
  {
    if StartsWith(host, ".") then host[1..] else host
  }

  /** Exactly one '.' goes: the host is the stripped one, or a '.' followed by it. */
  lemma StripDotShape(host: string)
    ensures host == StripDot(host) || host == "." + StripDot(host)
    ensures StartsWith(host, ".") <==> host == "." + StripDot(host)
    ensures StartsWith(StripDot(host), ".") ==> StartsWith(host, "..") || host == StripDot(host)
  {
    if StartsWith(host, ".") {
      assert host == "." + host[1..];
    }
  }

  function Scheme(secure: bool): string
  {
    if secure then "https" else "http"
  }

  /** The event's URL: scheme, '://', the stripped host and the path. */
  function CookieUrl(secure: bool, host: string, path: string): (r: string)
    ensures StartsWith(r, "https://") <==> secure
  {
    var r := Scheme(secure) + "://" + StripDot(host) + path;
    assert secure ==> r[..8] == "https://";
    assert !secure ==> r[4] == ':';
    r
  }

  /** ChromeCookieEvent's initialiser. */
  function NewEvent(timestamp: int, usage: TimeDesc, row: CookieRow): (e: ChromeCookieEvent)
    ensures e.timestamp == FromWebKitTime(timestamp) && e.timestampDesc == usage
    ensures e.secure <==> row.secure != 0
    ensures e.url == CookieUrl(e.secure, row.hostKey, row.path)
  {
    ChromeCookieEvent(FromWebKitTime(timestamp), usage, StripDot(row.hostKey), row.name, row.value,
                      row.path, row.secure != 0, row.httponly != 0, row.persistent != 0,
                      CookieUrl(row.secure != 0, row.hostKey, row.path))
  }

  /** The events ParseCookieRow yields itself: creation, access, and expiry when the cookie expires. */
  function CookieEvents(row: CookieRow): (r: seq<ChromeCookieEvent>)
    ensures |r| == if row.hasExpires != 0 then 3 else 2
  {
    [NewEvent(row.creationUtc, CreationTime, row), NewEvent(row.lastAccessUtc, AccessTime, row)] +
    (if row.hasExpires != 0 then [NewEvent(row.expiresUtc, CookieExpires, row)] else [])
  }

  /** Creation, then access, then expiry, each with its own column's time. */
  lemma CookieEventsOrder(row: CookieRow)
    ensures var r := CookieEvents(row);
      r[0].timestampDesc == CreationTime && r[0].timestamp == FromWebKitTime(row.creationUtc) &&
      r[1].timestampDesc == AccessTime && r[1].timestamp == FromWebKitTime(row.lastAccessUtc) &&
      (|r| == 3 ==> r[2].timestampDesc == CookieExpires && r[2].timestamp == FromWebKitTime(row.expiresUtc))
  {
  }

  /** Every event of a row describes the same cookie, with its host stripped of one '.'. */
  lemma CookieEventsAgree(row: CookieRow)
    ensures forall e :: e in CookieEvents(row) ==>
      e.host == StripDot(row.hostKey) && e.cookieName == row.name && e.data == row.value &&
      e.path == row.path && e.url == CookieUrl(row.secure != 0, row.hostKey, row.path) &&
      (e.httponly <==> row.httponly != 0) && (e.persistent <==> row.persistent != 0)
  {
  }

  // ---------------------------------------------------------------------
  // The cookie plugins' events

  /** The URL the cookie-plugin loop writes: 'http', 's' when secure, '://', host and path. */
  function PluginUrl(row: CookieRow): string
  {
    "http" + (if row.secure != 0 then "s" else "") + "://" + StripDot(row.hostKey) + row.path
  }

  /** The loop's URL is the one the plugin's own events carry. */
  lemma PluginUrlAgrees(row: CookieRow)
    ensures PluginUrl(row) == CookieUrl(row.secure != 0, row.hostKey, row.path)
  {
    var tail := "://" + StripDot(row.hostKey) + row.path;
    if row.secure != 0 {
      assert "http" + "s" + tail == "https" + tail;
    } else {
      assert "http" + "" + tail == "http" + tail;
    }
  }

  /** The attributes of a cookie plugin's event once the loop has set the row's fields on it. */
  function Enriched(m: Attributes, row: CookieRow): Attributes
  {
    m["httponly" := Bool(row.httponly != 0)]["persistent" := Bool(row.persistent != 0)]
     ["cookie_name" := Str(row.name)]["host" := Str(StripDot(row.hostKey))]["url" := Str(PluginUrl(row))]
  }

  /** Setting the fields twice is setting them once. */
  lemma EnrichedIdempotent(m: Attributes, row: CookieRow)
    ensures Enriched(Enriched(m, row), row) == Enriched(m, row)
  {
  }

  /**
   * A cookie plugin's event ends up with the host, URL and flags of the
   * row's own events, and keeps every other attribute it had.
   */
  lemma EnrichedMatchesOwnEvents(m: Attributes, row: CookieRow, e: ChromeCookieEvent)
    requires e in CookieEvents(row)
    ensures var n := Enriched(m, row);
      n["host"] == Str(e.host) && n["url"] == Str(e.url) && n["cookie_name"] == Str(e.cookieName) &&
      n["httponly"] == Bool(e.httponly) && n["persistent"] == Bool(e.persistent)
    ensures forall k :: k in m && k !in {"httponly", "persistent", "cookie_name", "host", "url"} ==>
      k in Enriched(m, row) && Enriched(m, row)[k] == m[k]
  {
    CookieEventsAgree(row);
    PluginUrlAgrees(row);
  }

  /** The five attribute assignments of the loop body on one event. */
  method Enrich(event: EventObject, row: CookieRow)
    modifies event
    ensures event.attributes == Enriched(old(event.attributes), row)
  {
    event.SetAttribute("httponly", Bool(row.httponly != 0));
    event.SetAttribute("persistent", Bool(row.persistent != 0));
    event.SetAttribute("cookie_name", Str(row.name));
    var hostname := row.hostKey;
    if StartsWith(hostname, ".") {
      hostname := hostname[1..];
    }
    event.SetAttribute("host", Str(hostname));
    event.SetAttribute("url", Str("http" + (if row.secure != 0 then "s" else "") + "://" + hostname + row.path));
  }

  /** The events of all the plugins, one plugin after the other. */
  function Flatten(runs: seq<seq<EventObject>>): (r: seq<EventObject>)
    ensures |r| == TotalLength(runs)
  {
    if runs == [] then []
    else
      TotalLengthSnoc(runs);
      Flatten(runs[..|runs| - 1]) + runs[|runs| - 1]
  }

  /** The number of events of all the plugins, counted from the first plugin on. */
  function TotalLength(runs: seq<seq<EventObject>>): nat
  {
    if runs == [] then 0 else |runs[0]| + TotalLength(runs[1..])
  }

  /** Counting from the first plugin or from the last gives the same total. */
  lemma {:induction false} TotalLengthSnoc(runs: seq<seq<EventObject>>)
    requires runs != []
    ensures TotalLength(runs) == TotalLength(runs[..|runs| - 1]) + |runs[|runs| - 1]|
    decreases |runs|
  {
    if |runs| > 1 {
      TotalLengthSnoc(runs[1..]);
      assert runs[1..][..|runs[1..]| - 1] == runs[..|runs| - 1][1..];
      assert runs[..|runs| - 1][0] == runs[0];
    }
  }

  /** Every plugin's events are among all the events, and all of them come from some plugin. */
  lemma {:induction false} FlattenHas(runs: seq<seq<EventObject>>)
    ensures forall i, e :: 0 <= i < |runs| && e in runs[i] ==> e in Flatten(runs)
    ensures forall e :: e in Flatten(runs) ==> exists i :: 0 <= i < |runs| && e in runs[i]
  {
    if runs != [] {
      var prefix := runs[..|runs| - 1];
      FlattenHas(prefix);
      forall i, e | 0 <= i < |runs| - 1 && e in runs[i] ensures e in Flatten(runs) {
        assert prefix[i] == runs[i];
      }
      forall e | e in Flatten(runs) ensures exists i :: 0 <= i < |runs| && e in runs[i] {
        if e in Flatten(prefix) {
          var i :| 0 <= i < |prefix| && e in prefix[i];
          assert runs[i] == prefix[i];
        } else {
          assert e in runs[|runs| - 1];
        }
      }
    }
  }

  /** One plugin's events, each enriched as it is yielded. */
  method EnrichAll(events: seq<EventObject>, row: CookieRow)
    modifies set e | e in events
    ensures forall e :: e in events ==> e.attributes == Enriched(old(e.attributes), row)
  {
    var j := 0;
    while j < |events|
      invariant 0 <= j <= |events|
      invariant forall e :: e in events ==>
        e.attributes == if e in events[..j] then Enriched(old(e.attributes), row) else old(e.attributes)
    {
      var ev := events[j];
      Enrich(ev, row);
      if ev in events[..j] {
        EnrichedIdempotent(old(ev.attributes), row);
      }
      assert events[..j + 1] == events[..j] + [ev];
      j := j + 1;
    }
  }

  /**
   * ParseCookieRow: the row's own events, then the events each cookie
   * plugin yields for the row's name and value, each given the row's
   * fields.  A plugin that raises WrongPlugin yields what it yielded
   * before; runs[i] is what plugin i yields.
   */
  method ParseCookieRow(row: CookieRow, runs: seq<seq<EventObject>>)
      returns (events: seq<ChromeCookieEvent>, pluginEvents: seq<EventObject>)
    modifies set i, j | 0 <= i < |runs| && 0 <= j < |runs[i]| :: runs[i][j]
    ensures events == CookieEvents(row)
    ensures pluginEvents == Flatten(runs)
    ensures forall i, j :: 0 <= i < |runs| && 0 <= j < |runs[i]| ==>
      runs[i][j].attributes == Enriched(old(runs[i][j].attributes), row)
  {
    events := [NewEvent(row.creationUtc, CreationTime, row)];
    events := events + [NewEvent(row.lastAccessUtc, AccessTime, row)];
    if row.hasExpires != 0 {
      events := events + [NewEvent(row.expiresUtc, CookieExpires, row)];
    }
    pluginEvents := [];
    var i := 0;
    while i < |runs|
      invariant 0 <= i <= |runs|
      invariant pluginEvents == Flatten(runs[..i])
      invariant forall k, j :: 0 <= k < |runs| && 0 <= j < |runs[k]| ==>
        runs[k][j].attributes ==
          if runs[k][j] in pluginEvents then Enriched(old(runs[k][j].attributes), row) else old(runs[k][j].attributes)
    {
      assert runs[..i + 1][..i] == runs[..i];
      FlattenHas(runs);
      EnrichAll(runs[i], row);
      forall m ensures Enriched(Enriched(m, row), row) == Enriched(m, row) {
        EnrichedIdempotent(m, row);
      }
      pluginEvents := pluginEvents + runs[i];
      i := i + 1;
    }
    assert runs[..i] == runs;
    FlattenHas(runs);
    assert forall k, j :: 0 <= k < |runs| && 0 <= j < |runs[k]| ==> runs[k][j] in runs[k];
  }
}
