/**
 * The MSIE cache file parser: up to four events per URL item (primary,
 * secondary, expiration and last-checked time), over the file's items and
 * then its recovered items, an item that cannot be read being skipped.
 */
module Msiecf {
  import opened Common
  import opened Timelib

  /** A pymsiecf URL item, with the raw integers of its four times. */
  datatype UrlItem = UrlItem(
    offset: int, location: string, numberOfHits: int, cacheDirectoryIndex: int,
    filename: string, cachedFileSize: int, itemType: string, data: seq<byte>,
    primaryTime: int, secondaryTime: int, expirationTime: int, lastCheckedTime: int)

  /** What get_item gives: a URL item, another kind of item, or an IOError. */
  datatype ItemRead = Url(item: UrlItem) | OtherItem | ReadError

  /** The descriptions: 'Primary Time', 'Secondary Time' and eventdata's. */
  datatype TimeDesc =
    | PrimaryTime | SecondaryTime | AccessTime | ModificationTime
    | LastVisitedTime | CreationTime | ExpirationTime | LastCheckedTime

  datatype MsiecfUrlEvent = MsiecfUrlEvent(
    timestamp: int, timestampDesc: TimeDesc, recovered: bool, offset: int, url: string,
    numberOfHits: int, cacheDirectoryIndex: int, filename: string, cachedFileSize: int,
    httpHeaders: Option<seq<byte>>)

  /** The bytes of 'HTTP'. */
  const HTTP: seq<byte> := [72, 84, 84, 80]

  /** http_headers: the data of a cache item that starts with 'HTTP', without its last byte. */
  function HttpHeaders(item: UrlItem): Option<seq<byte>>
  {
    if item.itemType != "" && item.data != [] && item.itemType == "cache" && item.data[..SliceBound(4, |item.data|)] == HTTP
    then Some(item.data[..|item.data| - 1])
    else None
  }

  lemma HttpHeadersCases(item: UrlItem)
    ensures HttpHeaders(item).Some? <==>
      item.itemType == "cache" && |item.data| >= 4 && item.data[..4] == HTTP
    ensures HttpHeaders(item).Some? ==> HttpHeaders(item).value + [item.data[|item.data| - 1]] == item.data
  {
    if HttpHeaders(item).Some? {
      assert |item.data[..SliceBound(4, |item.data|)]| == 4;
      assert item.data[..|item.data| - 1] + [item.data[|item.data| - 1]] == item.data;
    }
  }

  /** MsiecfUrlEvent's initialiser. */
  function NewEvent(timestamp: int, desc: TimeDesc, item: UrlItem, recovered: bool): MsiecfUrlEvent
  {
    MsiecfUrlEvent(timestamp, desc, recovered, item.offset, item.location, item.numberOfHits,
                   item.cacheDirectoryIndex, item.filename, item.cachedFileSize, HttpHeaders(item))
  }

  /** The primary and secondary descriptions of an item type, and whether the secondary time is local. */
  function Descriptions(itemType: string): (TimeDesc, TimeDesc, bool)
  {
    if itemType == "cache" || itemType == "cookie" then (AccessTime, ModificationTime, false)
    else if itemType == "history" then (LastVisitedTime, LastVisitedTime, false)
    else if itemType == "history-daily" then (LastVisitedTime, LastVisitedTime, true)
    else if itemType == "history-weekly" then (CreationTime, LastVisitedTime, true)
    else (PrimaryTime, SecondaryTime, false)
  }

  /**
   * _ParseUrl.  The local time of the daily and weekly history is turned
   * into UTC through localToUtc, pytz's conversion for the configured zone.
   */
  function ParseUrl(item: UrlItem, version: string, localToUtc: int -> int, recovered: bool): seq<MsiecfUrlEvent>
  {
    var (primaryDesc, secondaryDesc, local) := Descriptions(item.itemType);
    var primary := FromFiletime(item.primaryTime);
    var secondary := if local then localToUtc(FromFiletime(item.secondaryTime)) else FromFiletime(item.secondaryTime);
    var expiration := if version == "4.7" then FromFiletime(item.expirationTime) else FromFatDateTime(item.expirationTime);
    [NewEvent(primary, primaryDesc, item, recovered)] +
    (if secondary > 0 then [NewEvent(secondary, secondaryDesc, item, recovered)] else []) +
    (if item.expirationTime > 0 then [NewEvent(expiration, ExpirationTime, item, recovered)] else []) +
    (if item.lastCheckedTime > 0 then [NewEvent(FromFatDateTime(item.lastCheckedTime), LastCheckedTime, item, recovered)] else [])
  }

  /** The secondary timestamp as compared against zero. */
  function SecondaryTimestamp(item: UrlItem, localToUtc: int -> int): int
  {
    if Descriptions(item.itemType).2 then localToUtc(FromFiletime(item.secondaryTime)) else FromFiletime(item.secondaryTime)
  }

  /**
   * The primary event always comes first; the secondary follows when its
   * timestamp is positive, the expiration when its raw value is, and the
   * last-checked one last when its raw value is.
   */
  lemma ParseUrlShape(item: UrlItem, version: string, localToUtc: int -> int, recovered: bool)
    ensures var r := ParseUrl(item, version, localToUtc, recovered);
      var s := SecondaryTimestamp(item, localToUtc);
      var nSec := if s > 0 then 1 else 0;
      var nExp := if item.expirationTime > 0 then 1 else 0;
      |r| == 1 + nSec + nExp + (if item.lastCheckedTime > 0 then 1 else 0) &&
      r[0].timestamp == FromFiletime(item.primaryTime) && r[0].timestampDesc == Descriptions(item.itemType).0 &&
      (s > 0 ==> r[1].timestamp == s && r[1].timestampDesc == Descriptions(item.itemType).1) &&
      (item.expirationTime > 0 ==>
        r[1 + nSec].timestampDesc == ExpirationTime &&
        r[1 + nSec].timestamp == (if version == "4.7" then FromFiletime(item.expirationTime) else FromFatDateTime(item.expirationTime))) &&
      (item.lastCheckedTime > 0 ==>
        r[|r| - 1].timestampDesc == LastCheckedTime && r[|r| - 1].timestamp == FromFatDateTime(item.lastCheckedTime))
  {
  }

  /** Every event of an item carries the item's fields and the recovered flag. */
  lemma ParseUrlFields(item: UrlItem, version: string, localToUtc: int -> int, recovered: bool)
    ensures forall e :: e in ParseUrl(item, version, localToUtc, recovered) ==>
      e.recovered == recovered && e.offset == item.offset && e.url == item.location &&
      e.numberOfHits == item.numberOfHits && e.filename == item.filename &&
      e.cachedFileSize == item.cachedFileSize && e.httpHeaders == HttpHeaders(item)
  {
  }

  /** The fixed descriptions of the known item types. */
  lemma DescriptionsFixed(itemType: string)
    ensures itemType == "cache" || itemType == "cookie" ==> Descriptions(itemType) == (AccessTime, ModificationTime, false)
    ensures itemType == "history-weekly" ==> Descriptions(itemType).0 == CreationTime && Descriptions(itemType).2
    ensures itemType !in {"cache", "cookie", "history", "history-daily", "history-weekly"} ==>
      Descriptions(itemType) == (PrimaryTime, SecondaryTime, false)
  {
  }

  /** The events of one item read; an item that is not a URL or cannot be read gives none. */
  function ItemEvents(it: ItemRead, version: string, localToUtc: int -> int, recovered: bool): seq<MsiecfUrlEvent>
  {
    if it.Url? then ParseUrl(it.item, version, localToUtc, recovered) else []
  }

  /** The events of a list of items, item by item. */
  function Collect(items: seq<ItemRead>, f: ItemRead -> seq<MsiecfUrlEvent>): seq<MsiecfUrlEvent>
    decreases |items|
  {
    if items == [] then [] else Collect(items[..|items| - 1], f) + f(items[|items| - 1])
  }

  lemma {:induction false} CollectConcat(a: seq<ItemRead>, b: seq<ItemRead>, f: ItemRead -> seq<MsiecfUrlEvent>)
    ensures Collect(a + b, f) == Collect(a, f) + Collect(b, f)
    decreases |b|
  {
    if b == [] {
      assert a + b == a;
    } else {
      var init := b[..|b| - 1];
      CollectConcat(a, init, f);
      assert (a + b)[..|a + b| - 1] == a + init;
      var p, q, t := Collect(a, f), Collect(init, f), f(b[|b| - 1]);
      assert Collect(a + b, f) == (p + q) + t;
      assert (p + q) + t == p + (q + t);
    }
  }

  function ParseItems(items: seq<ItemRead>, version: string, localToUtc: int -> int, recovered: bool): seq<MsiecfUrlEvent>
  {
    Collect(items, it => ItemEvents(it, version, localToUtc, recovered))
  }

  /** Every event of a list of items has the list's recovered flag. */
  lemma {:induction false} CollectRecovered(items: seq<ItemRead>, version: string, localToUtc: int -> int, recovered: bool)
    ensures forall e :: e in Collect(items, it => ItemEvents(it, version, localToUtc, recovered)) ==> e.recovered == recovered
    decreases |items|
  {
    if items != [] {
      CollectRecovered(items[..|items| - 1], version, localToUtc, recovered);
      var last := items[|items| - 1];
      if last.Url? {
        ParseUrlFields(last.item, version, localToUtc, recovered);
      }
    }
  }

  lemma ParseItemsRecovered(items: seq<ItemRead>, version: string, localToUtc: int -> int, recovered: bool)
    ensures forall e :: e in ParseItems(items, version, localToUtc, recovered) ==> e.recovered == recovered
  {
    CollectRecovered(items, version, localToUtc, recovered);
  }

  /** An item that cannot be read, like an item that is not a URL, changes nothing. */
  lemma ReadErrorSkipped(items: seq<ItemRead>, more: seq<ItemRead>, version: string, localToUtc: int -> int, recovered: bool)
    ensures ParseItems(items + [ReadError] + more, version, localToUtc, recovered) ==
      ParseItems(items + more, version, localToUtc, recovered)
    ensures ParseItems(items + [OtherItem] + more, version, localToUtc, recovered) ==
      ParseItems(items + more, version, localToUtc, recovered)
  {
    var f := it => ItemEvents(it, version, localToUtc, recovered);
    CollectSkip(items, ReadError, more, f);
    CollectSkip(items, OtherItem, more, f);
  }

  /** An item that gives no events can be dropped. */
  lemma CollectSkip(items: seq<ItemRead>, x: ItemRead, more: seq<ItemRead>, f: ItemRead -> seq<MsiecfUrlEvent>)
    requires f(x) == []
    ensures Collect(items + [x] + more, f) == Collect(items + more, f)
  {
    CollectConcat(items + [x], more, f);
    CollectConcat(items, more, f);
    assert (items + [x])[..|items|] == items;
    assert Collect(items + [x], f) == Collect(items, f) + [];
  }

  /** An opened MSIE cache file: its format version, its items and its recovered items. */
  datatype MsiecfFile = MsiecfFile(formatVersion: string, items: seq<ItemRead>, recoveredItems: seq<ItemRead>)

  /** Parse over the items of a list. */
  method ParseList(items: seq<ItemRead>, version: string, localToUtc: int -> int, recovered: bool)
      returns (events: seq<MsiecfUrlEvent>)
    ensures events == ParseItems(items, version, localToUtc, recovered)
  {
    events := [];
    var itemIndex := 0;
    while itemIndex < |items|
      invariant 0 <= itemIndex <= |items|
      invariant events == ParseItems(items[..itemIndex], version, localToUtc, recovered)
    {
      assert items[..itemIndex + 1][..itemIndex] == items[..itemIndex];
      assert ParseItems(items[..itemIndex + 1], version, localToUtc, recovered) ==
        events + ItemEvents(items[itemIndex], version, localToUtc, recovered);
      var msiecfItem := items[itemIndex];
      if msiecfItem.Url? {
        events := events + ParseUrl(msiecfItem.item, version, localToUtc, recovered);
      }
      // An IOError is logged and the item skipped; other kinds of item are not parsed.
      itemIndex := itemIndex + 1;
    }
    assert items[..itemIndex] == items;
  }

  /**
   * Parse: UnableToParseFile when the file cannot be opened (None here);
   * otherwise the events of the items, then those of the recovered items.
   */
  method Parse(file: Option<MsiecfFile>, localToUtc: int -> int) returns (r: Result<seq<MsiecfUrlEvent>>)
    ensures file.None? ==> r == Err(UnableToParseFile)
    ensures file.Some? ==> r == Ok(
      ParseItems(file.value.items, file.value.formatVersion, localToUtc, false) +
      ParseItems(file.value.recoveredItems, file.value.formatVersion, localToUtc, true))
  {
    if file.None? {
      return Err(UnableToParseFile);
    }
    var version := file.value.formatVersion;
    var events := ParseList(file.value.items, version, localToUtc, false);
    var recoveredEvents := ParseList(file.value.recoveredItems, version, localToUtc, true);
    r := Ok(events + recoveredEvents);
  }
}
