/**
 * The Safari history plist plugin (plaso/parsers/plist_plugins/safari.py):
 * one visit event per history entry with a usable lastVisitedDate, only
 * for history file version 1.
 */
module PlistSafari {
  import opened Common
  import opened PlistInterface
  import Timelib

  const PLUGIN: Plugin := Plugin("History.plist", {"WebHistoryDates", "WebHistoryFileVersion"})

  /**
   * float(text) for a lastVisitedDate string, in whole Cocoa seconds; None
   * where float() raises ValueError.
   */
  type FloatParser = string -> Option<int>

  /** A SafariHistoryEvent; displayTitle is None when the attribute is not set. */
  datatype SafariEvent = SafariEvent(
    timestamp: int, url: PValue, title: PValue, displayTitle: Option<PValue>,
    visitCount: PValue, wasHttpNonGet: PValue)

  /** history_entry.get(key, None) */
  function GetOrNone(items: seq<(string, PValue)>, key: string): PValue
  {
    var v := Get(items, key);
    if v.Some? then v.value else PNone
  }

  function MakeEvent(timestamp: int, items: seq<(string, PValue)>): (e: SafariEvent)
    ensures e.displayTitle.Some? <==> GetOrNone(items, "displayTitle") != GetOrNone(items, "title")
  {
    var title := GetOrNone(items, "title");
    var display := GetOrNone(items, "displayTitle");
    SafariEvent(timestamp, GetOrNone(items, ""), title, if display != title then Some(display) else None,
                GetOrNone(items, "visitCount"), GetOrNone(items, "lastVisitWasHTTPNonGet"))
  }

  /** float(value): Ok(None) stands for the ValueError the plugin catches. */
  function ToSeconds(v: PValue, parse: FloatParser): Result<Option<int>>
  {
    match v
      case PInt(i) => Ok(Some(i))
      case PBool(b) => Ok(Some(if b then 1 else 0))
      case PStr(s) => Ok(parse(s))
      case _ => Err(TypeError)
  }

  /** What one history entry contributes: nothing, one event, or an exception. */
  function EntryEvents(entry: PValue, parse: FloatParser): (r: Yielded<SafariEvent>)
    ensures |r.events| <= 1 && forall e :: e in r.events ==> e.timestamp != 0
    ensures !entry.PDict? ==> r.error == Some(AttributeError)
  {
    if !entry.PDict? then Yielded([], Some(AttributeError))
    else
      var date := Get(entry.items, "lastVisitedDate");
      match ToSeconds(if date.Some? then date.value else PInt(0), parse)
        case Err(e) => Yielded([], Some(e))
        case Ok(None) => Yielded([], None)
        case Ok(Some(seconds)) =>
          var time := Timelib.FromCocoaTime(seconds);
          if time == 0 then Yielded([], None)
          else Yielded([MakeEvent(time, entry.items)], None)
  }

  function EntriesFrom(entries: seq<PValue>, i: nat, parse: FloatParser): Yielded<SafariEvent>
    requires i <= |entries|
    decreases |entries| - i
  {
    if i == |entries| then Yielded([], None)
    else
      var r := EntryEvents(entries[i], parse);
      if r.error.Some? then r else Then(r.events, EntriesFrom(entries, i + 1, parse))
  }

  /** WebHistoryFileVersion == 1 (True compares equal to 1 as well). */
  predicate VersionOne(m: map<string, PValue>)
  {
    "WebHistoryFileVersion" in m && (m["WebHistoryFileVersion"] == PInt(1) || m["WebHistoryFileVersion"] == PBool(true))
  }

  /** SafariHistoryPlugin.GetEntries over the matched keys. */
  function GetEntries(m: map<string, PValue>, parse: FloatParser): Yielded<SafariEvent>
  {
    if !VersionOne(m) then Yielded([], None)
    else
      match Iterate(if "WebHistoryDates" in m then m["WebHistoryDates"] else PDict([]))
        case Err(e) => Yielded([], Some(e))
        case Ok(entries) => EntriesFrom(entries, 0, parse)
  }

  /** Nothing is emitted, and nothing is raised, unless the file version is 1. */
  lemma OnlyVersionOne(m: map<string, PValue>, parse: FloatParser)
    requires !VersionOne(m)
    ensures GetEntries(m, parse) == Yielded([], None)
  {
  }

  /**
   * An entry whose lastVisitedDate float() rejects, or whose time is 0, is
   * skipped without ending the loop.
   */
  lemma UnusableDateSkipped(entries: seq<PValue>, i: nat, parse: FloatParser)
    requires i < |entries| && entries[i].PDict?
    requires var d := Get(entries[i].items, "lastVisitedDate");
      var t := ToSeconds(if d.Some? then d.value else PInt(0), parse);
      t == Ok(None) || (t.Ok? && t.value.Some? && Timelib.FromCocoaTime(t.value.value) == 0)
    ensures EntriesFrom(entries, i, parse) == EntriesFrom(entries, i + 1, parse)
  {
    var d := Get(entries[i].items, "lastVisitedDate");
    var t := ToSeconds(if d.Some? then d.value else PInt(0), parse);
    assert EntryEvents(entries[i], parse) == Yielded([], None) by {
      if t.Ok? && t.value.Some? {
        assert Timelib.FromCocoaTime(t.value.value) == 0;
      }
    }
    var rest := EntriesFrom(entries, i + 1, parse);
    assert [] + rest.events == rest.events;
  }

  /** Every event has a non-zero timestamp, and each entry yields at most one event. */
  lemma {:induction false} EventsNonZero(entries: seq<PValue>, i: nat, parse: FloatParser)
    requires i <= |entries|
    ensures var r := EntriesFrom(entries, i, parse);
      (forall e :: e in r.events ==> e.timestamp != 0) && |r.events| <= |entries| - i
    decreases |entries| - i
  {
    if i < |entries| {
      EventsNonZero(entries, i + 1, parse);
      var r := EntryEvents(entries[i], parse);
      var rest := EntriesFrom(entries, i + 1, parse);
      if r.error.None? {
        assert EntriesFrom(entries, i, parse) == Yielded(r.events + rest.events, rest.error);
        NonZeroJoin(r.events, rest.events, |entries| - (i + 1));
      } else {
        assert EntriesFrom(entries, i, parse) == r;
      }
    }
  }

  /** The events of one entry before those of the rest. */
  lemma NonZeroJoin(a: seq<SafariEvent>, b: seq<SafariEvent>, n: nat)
    requires |a| <= 1 && |b| <= n
    requires forall e :: e in a ==> e.timestamp != 0
    requires forall e :: e in b ==> e.timestamp != 0
    ensures |a + b| <= n + 1
    ensures forall e :: e in a + b ==> e.timestamp != 0
  {
  }

  /** An entry whose lastVisitedDate is a number with a non-zero Cocoa time yields its one event. */
  lemma UsableDateEmits(entry: PValue, parse: FloatParser, seconds: int)
    requires entry.PDict? && Get(entry.items, "lastVisitedDate") == Some(PInt(seconds))
    requires Timelib.FromCocoaTime(seconds) != 0
    ensures EntryEvents(entry, parse) == Yielded([MakeEvent(Timelib.FromCocoaTime(seconds), entry.items)], None)
  {
  }
}
