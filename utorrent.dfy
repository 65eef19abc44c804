/**
 * The uTorrent bencode plugin: resume.dat holds one dictionary per
 * torrent, under a key containing '.torrent'; every torrent must have a
 * caption, a path and a seeding time before any event is produced, and
 * then each gives its added, completed and modification times.
 */
module UTorrent {
  import opened Common
  import opened Timelib
  import opened BencodeValues

  /** ADDED_TIME, FILE_DOWNLOADED and MODIFICATION_TIME. */
  datatype TimeDesc = AddedTime | FileDownloaded | ModificationTime

  /** UTorrentEvent: a POSIX time event with the torrent's path, caption and seeding minutes. */
  datatype UTorrentEvent = UTorrentEvent(
    timestamp: int, timestampDesc: TimeDesc, path: Option<BValue>, caption: Option<BValue>, seedtime: int)

  /** The keys of the torrents' dictionaries. */
  predicate IsTorrentKey(key: string)
  {
    Contains(key, ".torrent")
  }

  /** UTorrentEvent's initialiser: the seeding time is stored in whole minutes. */
  function NewEvent(timestamp: BValue, desc: TimeDesc, path: Option<BValue>, caption: Option<BValue>,
                    seedtime: Option<BValue>): (r: Result<UTorrentEvent>)
    ensures r.Ok? <==> Minutes(seedtime).Ok?
    ensures r.Ok? ==>
      r.value.timestamp == PosixOf(timestamp) && r.value.timestampDesc == desc &&
      r.value.seedtime == Minutes(seedtime).value && r.value.path == path && r.value.caption == caption
  {
    match Minutes(seedtime)
    case Err(x) => Err(x)
    case Ok(m) => Ok(UTorrentEvent(PosixOf(timestamp), desc, path, caption, m))
  }

  /** One event as a generator step: the event, or the exception its creation raises. */
  function Emit(r: Result<UTorrentEvent>): Yielded<UTorrentEvent>
  {
    match r
    case Err(x) => Yielded([], Some(x))
    case Ok(e) => Yielded([e], None)
  }

  /** `seedtime < 0` in Python 2: None is below every number, other non-integers above. */
  predicate SeedBelowZero(seedtime: Option<BValue>)
  {
    seedtime.None? || (seedtime.value.BInt? && seedtime.value.i < 0)
  }

  /**
   * The first loop of GetEntries: WrongBencodePlugin at the first torrent
   * without a caption or a path or with a seeding time below zero; an
   * AttributeError (calling get) at a torrent value that is not a dictionary.
   */
  function CheckTorrents(data: seq<(string, BValue)>): Option<Exc>
  {
    if data == [] then None
    else
      var (key, value) := data[0];
      if !IsTorrentKey(key) then CheckTorrents(data[1..])
      else if !value.BDict? then Some(AttributeError)
      else if !Truthy(Get(value.entries, "caption")) || !Truthy(Get(value.entries, "path")) ||
              SeedBelowZero(Get(value.entries, "seedtime"))
      then Some(WrongBencodePlugin)
      else CheckTorrents(data[1..])
  }

  /** What `for modtime in modtimes` iterates over: a list's items, a dictionary's keys, a string's characters. */
  function Iterated(v: BValue): Result<seq<BValue>>
  {
    match v
    case BInt(_) => Err(TypeError)
    case BStr(s) => Ok(seq(|s|, i requires 0 <= i < |s| => BStr([s[i]])))
    case BList(items) => Ok(items)
    case BDict(entries) => Ok(seq(|entries|, i requires 0 <= i < |entries| => BStr(entries[i].0)))
  }

  /** The modification events: one per modification time, the zero ones skipped. */
  function ModEvents(times: seq<BValue>, path: Option<BValue>, caption: Option<BValue>, seedtime: Option<BValue>): Yielded<UTorrentEvent>
  {
    if times == [] then Yielded([], None)
    else if !Truthy(Some(times[0])) then ModEvents(times[1..], path, caption, seedtime)
    else Chain(Emit(NewEvent(times[0], ModificationTime, path, caption, seedtime)), ModEvents(times[1..], path, caption, seedtime))
  }

  /** The events of the entries of one torrent's dictionary, in order. */
  function ValueEvents(entries: seq<(string, BValue)>, path: Option<BValue>, caption: Option<BValue>,
                       seedtime: Option<BValue>): Yielded<UTorrentEvent>
  {
    if entries == [] then Yielded([], None)
    else
      var (eventKey, eventValue) := entries[0];
      var rest := ValueEvents(entries[1..], path, caption, seedtime);
      if eventKey == "added_on" then Chain(Emit(NewEvent(eventValue, AddedTime, path, caption, seedtime)), rest)
      else if eventKey == "completed_on" then Chain(Emit(NewEvent(eventValue, FileDownloaded, path, caption, seedtime)), rest)
      else if eventKey == "modtimes" then
        match Iterated(eventValue)
        case Err(x) => Yielded([], Some(x))
        case Ok(times) => Chain(ModEvents(times, path, caption, seedtime), rest)
      else rest
  }

  /** The second loop of GetEntries: every torrent's events, torrent after torrent. */
  function TorrentEvents(data: seq<(string, BValue)>): Yielded<UTorrentEvent>
  {
    if data == [] then Yielded([], None)
    else
      var (torrent, value) := data[0];
      var rest := TorrentEvents(data[1..]);
      if !IsTorrentKey(torrent) || !value.BDict? then rest
      else
        var v := value.entries;
        Chain(ValueEvents(v, Get(v, "path"), Get(v, "caption"), Get(v, "seedtime")), rest)
  }

  /** GetEntries: the check of every torrent, then their events. */
  function GetEntries(data: seq<(string, BValue)>): (r: Yielded<UTorrentEvent>)
    ensures CheckTorrents(data).Some? ==> r == Yielded([], CheckTorrents(data))
  {
    match CheckTorrents(data)
    case Some(x) => Yielded([], Some(x))
    case None => TorrentEvents(data)
  }

  /** A torrent that fails the check fails the whole file before any event. */
  lemma {:induction false} BadTorrentRejects(before: seq<(string, BValue)>, key: string, value: seq<(string, BValue)>,
                                             after: seq<(string, BValue)>)
    requires IsTorrentKey(key)
    requires !Truthy(Get(value, "caption")) || !Truthy(Get(value, "path")) || SeedBelowZero(Get(value, "seedtime"))
    ensures CheckTorrents(before + [(key, BDict(value))] + after).Some?
    ensures GetEntries(before + [(key, BDict(value))] + after).events == []
    ensures GetEntries(before + [(key, BDict(value))] + after).error.Some?
    decreases |before|
  {
    if before != [] {
      BadTorrentRejects(before[1..], key, value, after);
      assert (before + [(key, BDict(value))] + after)[1..] == before[1..] + [(key, BDict(value))] + after;
    } else {
      assert before + [(key, BDict(value))] + after == [(key, BDict(value))] + after;
    }
  }

  /** Entries whose key does not name a torrent take no part in the check or the events. */
  lemma {:induction false} OtherKeysIgnored(before: seq<(string, BValue)>, key: string, value: BValue,
                                            after: seq<(string, BValue)>)
    requires !IsTorrentKey(key)
    ensures CheckTorrents(before + [(key, value)] + after) == CheckTorrents(before + after)
    ensures TorrentEvents(before + [(key, value)] + after) == TorrentEvents(before + after)
    ensures GetEntries(before + [(key, value)] + after) == GetEntries(before + after)
    decreases |before|
  {
    var whole := before + [(key, value)] + after;
    if before != [] {
      OtherKeysIgnored(before[1..], key, value, after);
      assert whole[0] == before[0] && whole[1..] == before[1..] + [(key, value)] + after;
      assert (before + after)[0] == before[0] && (before + after)[1..] == before[1..] + after;
    } else {
      assert whole[1..] == after && before + after == after;
    }
  }

  /** Added and completed times give one event each, at their POSIX time, with the torrent's fields. */
  lemma AddedAndCompleted(t1: int, t2: int, path: Option<BValue>, caption: Option<BValue>, seconds: int)
    ensures ValueEvents([("added_on", BInt(t1)), ("completed_on", BInt(t2))], path, caption, Some(BInt(seconds))) ==
      Yielded([UTorrentEvent(FromPosixTime(t1), AddedTime, path, caption, seconds / 60),
               UTorrentEvent(FromPosixTime(t2), FileDownloaded, path, caption, seconds / 60)], None)
  {
    var seedtime := Some(BInt(seconds));
    var e1 := UTorrentEvent(FromPosixTime(t1), AddedTime, path, caption, seconds / 60);
    var e2 := UTorrentEvent(FromPosixTime(t2), FileDownloaded, path, caption, seconds / 60);
    var entries := [("added_on", BInt(t1)), ("completed_on", BInt(t2))];
    assert entries[1..] == [("completed_on", BInt(t2))];
    assert entries[1..][1..] == [];
    assert ValueEvents(entries[1..], path, caption, seedtime) == Chain(Yielded([e2], None), Yielded([], None));
    assert ValueEvents(entries[1..], path, caption, seedtime) == Yielded([e2], None);
    assert ValueEvents(entries, path, caption, seedtime) == Chain(Yielded([e1], None), Yielded([e2], None));
  }

  /**
   * With an integer seeding time no exception occurs: the modification
   * events are the non-zero times, in order, each at its POSIX time.
   */
  lemma {:induction false} ModEventsNonZero(times: seq<BValue>, path: Option<BValue>, caption: Option<BValue>, seconds: int)
    ensures var r := ModEvents(times, path, caption, Some(BInt(seconds)));
      r.error.None? && |r.events| == |NonZero(times)| &&
      forall i :: 0 <= i < |r.events| ==>
        r.events[i] == UTorrentEvent(PosixOf(NonZero(times)[i]), ModificationTime, path, caption, seconds / 60)
  {
    if times != [] {
      ModEventsNonZero(times[1..], path, caption, seconds);
    }
  }

  /** The non-zero (truthy) modification times, in order. */
  function NonZero(times: seq<BValue>): (r: seq<BValue>)
    ensures |r| <= |times|
    ensures forall v :: v in r ==> v in times && Truthy(Some(v))
  {
    if times == [] then []
    else if Truthy(Some(times[0])) then [times[0]] + NonZero(times[1..])
    else NonZero(times[1..])
  }

  /** A seeding time that is not an integer raises TypeError at the torrent's first event. */
  lemma NonIntegerSeedtime(t: BValue, rest: seq<(string, BValue)>, path: Option<BValue>, caption: Option<BValue>, text: string)
    ensures ValueEvents([("added_on", t)] + rest, path, caption, Some(BStr(text))) == Yielded([], Some(TypeError))
  {
    assert ([("added_on", t)] + rest)[0] == ("added_on", t);
  }
}
