/**
 * The USBStor registry plugin: every device-class subkey of
 * Enum\USBSTOR gives a first-connected event, and every device key below
 * it a last-connected event and one event per distinct first-insertion
 * time, all sharing one text dictionary that the plugin updates as it
 * goes.
 */
module UsbStor {
  import opened Common
  import opened WinReg

  const DESCRIPTION := "USBStor Entries"

  /** The four '&'-separated parts of a device-class subkey name. */
  datatype Fields = Fields(deviceType: string, vendor: string, product: string, revision: string)

  /** `device_type, vendor, product, revision = name.split('&')`: None for the ValueError of any other count. */
  function SplitFields(name: string): (r: Option<Fields>)
    ensures r.Some? <==> |Split(name, "&")| == 4
  {
    var parts := Split(name, "&");
    if |parts| == 4 then Some(Fields(parts[0], parts[1], parts[2], parts[3])) else None
  }

  /**
   * The four locals after a subkey: the new parts when its name splits,
   * otherwise what the previous subkeys left in them (None: never assigned).
   */
  function Carried(prior: Option<Fields>, name: string): Option<Fields>
  {
    if SplitFields(name).Some? then SplitFields(name) else prior
  }

  /** The four locals after some subkeys. */
  function FieldsAfter(subkeys: seq<RegKey>): Option<Fields>
  {
    if subkeys == [] then None else Carried(FieldsAfter(subkeys[..|subkeys| - 1]), subkeys[|subkeys| - 1].name)
  }

  /** The text dictionary of a subkey once its four parts are set. */
  function BaseDict(name: string, f: Fields): map<string, RegData>
  {
    map["subkey_name" := StrData(name), "device_type" := StrData(f.deviceType), "vendor" := StrData(f.vendor),
        "product" := StrData(f.product), "revision" := StrData(f.revision)]
  }

  /** Sets key to the value's data when the value exists, removes it otherwise (`pop(key, None)`). */
  function SetOrPop(d: map<string, RegData>, k: string, v: Option<RegValue>): map<string, RegData>
  {
    if v.Some? then d[k := v.value.data] else d - {k}
  }

  /** The text dictionary after the updates for one device key. */
  function DeviceDict(d: map<string, RegData>, devicekey: RegKey): map<string, RegData>
  {
    var serial := d["serial" := StrData(devicekey.name)];
    var friendly := SetOrPop(serial, "friendly_name", GetValue(devicekey.values, "FriendlyName"));
    SetOrPop(friendly, "parent_id_prefix", GetValue(devicekey.values, "ParentIdPrefix"))
  }

  /** `t not in first_insert`, then append: the list grows only by new times. */
  function AddNew(times: seq<int>, k: Option<RegKey>): (r: seq<int>)
  {
    if k.Some? && k.value.lastWritten !in times then times + [k.value.lastWritten] else times
  }

  /** The first-insertion times from the Device Parameters, LogConf and Properties subkeys, without repeats. */
  function FirstInsertsOf(parameters: Option<RegKey>, logConfiguration: Option<RegKey>, properties: Option<RegKey>): seq<int>
  {
    var initial := if parameters.Some? then [parameters.value.lastWritten] else [];
    AddNew(AddNew(initial, logConfiguration), properties)
  }

  /** The first-insertion times of a device key. */
  function FirstInserts(devicekey: RegKey): seq<int>
  {
    FirstInsertsOf(GetSubkey(devicekey.subkeys, "Device Parameters"), GetSubkey(devicekey.subkeys, "LogConf"),
                   GetSubkey(devicekey.subkeys, "Properties"))
  }

  function Event(keyPath: string, text: map<string, RegData>, timestamp: int, usage: Usage): RegistryEvent
  {
    RegistryEvent(keyPath, text, timestamp, usage, SourceAppend(DESCRIPTION))
  }

  /** One last-connected event per time, in order, each with the same text. */
  function TimesEvents(keyPath: string, text: map<string, RegData>, times: seq<int>): (r: seq<RegistryEvent>)
    ensures |r| == |times|
  {
    seq(|times|, k requires 0 <= k < |times| => Event(keyPath, text, times[k], LastConnected))
  }

  /** The events of one device key, given the dictionary it leaves. */
  function DeviceEvents(keyPath: string, text: map<string, RegData>, devicekey: RegKey): seq<RegistryEvent>
  {
    [Event(keyPath, text, devicekey.lastWritten, LastConnected)] + TimesEvents(keyPath, text, FirstInserts(devicekey))
  }

  /** The events of some device keys of a subkey whose dictionary holds base before them. */
  function DevicesEvents(keyPath: string, base: map<string, RegData>, devicekeys: seq<RegKey>): seq<RegistryEvent>
  {
    if devicekeys == [] then []
    else
      var last := devicekeys[|devicekeys| - 1];
      DevicesEvents(keyPath, base, devicekeys[..|devicekeys| - 1]) + DeviceEvents(keyPath, DeviceDict(base, last), last)
  }

  /**
   * The events of one subkey: first-connected at its last-written time,
   * then, when the four locals are bound, its device keys' events; an
   * UnboundLocalError when they never were.
   */
  function SubkeyEvents(keyPath: string, subkey: RegKey, prior: Option<Fields>): Yielded<RegistryEvent>
  {
    var first := Event(keyPath, map["subkey_name" := StrData(subkey.name)], subkey.lastWritten, FirstConnected);
    match Carried(prior, subkey.name)
    case None => Yielded([first], Some(UnboundLocalError))
    case Some(f) => Yielded([first] + DevicesEvents(keyPath, BaseDict(subkey.name, f), subkey.subkeys), None)
  }

  /** The events of some subkeys, stopping at the first exception. */
  function EventsOf(keyPath: string, subkeys: seq<RegKey>): Yielded<RegistryEvent>
  {
    if subkeys == [] then Yielded([], None)
    else
      var prior := EventsOf(keyPath, subkeys[..|subkeys| - 1]);
      if prior.error.Some? then prior
      else Then(prior.events, SubkeyEvents(keyPath, subkeys[|subkeys| - 1], FieldsAfter(subkeys[..|subkeys| - 1])))
  }

  // ---------------------------------------------------------------------
  // The plugin's loops

  /** The first_insert list, built by appends. */
  method FirstInsertTimes(devicekey: RegKey) returns (firstInsert: seq<int>)
    ensures firstInsert == FirstInserts(devicekey)
  {
    firstInsert := [];
    var parameters := GetSubkey(devicekey.subkeys, "Device Parameters");
    if parameters.Some? {
      firstInsert := firstInsert + [parameters.value.lastWritten];
    }
    var logConfiguration := GetSubkey(devicekey.subkeys, "LogConf");
    if logConfiguration.Some? && logConfiguration.value.lastWritten !in firstInsert {
      firstInsert := firstInsert + [logConfiguration.value.lastWritten];
    }
    var properties := GetSubkey(devicekey.subkeys, "Properties");
    if properties.Some? && properties.value.lastWritten !in firstInsert {
      firstInsert := firstInsert + [properties.value.lastWritten];
    }
  }

  /** The dictionary updates for one device key, on the shared dictionary. */
  method UpdateDict(textDict: map<string, RegData>, devicekey: RegKey) returns (newDict: map<string, RegData>)
    ensures newDict == DeviceDict(textDict, devicekey)
  {
    newDict := textDict["serial" := StrData(devicekey.name)];
    var friendlyName := GetValue(devicekey.values, "FriendlyName");
    if friendlyName.Some? {
      newDict := newDict["friendly_name" := friendlyName.value.data];
    } else {
      newDict := newDict - {"friendly_name"};
    }
    var parentIdPrefix := GetValue(devicekey.values, "ParentIdPrefix");
    if parentIdPrefix.Some? {
      newDict := newDict["parent_id_prefix" := parentIdPrefix.value.data];
    } else {
      newDict := newDict - {"parent_id_prefix"};
    }
  }

  /** The loop over first_insert: one last-connected event per time. */
  method InsertionEvents(keyPath: string, text: map<string, RegData>, firstInsert: seq<int>)
    returns (events: seq<RegistryEvent>)
    ensures events == TimesEvents(keyPath, text, firstInsert)
  {
    events := [];
    var k := 0;
    while k < |firstInsert|
      invariant 0 <= k <= |firstInsert|
      invariant events == TimesEvents(keyPath, text, firstInsert[..k])
    {
      events := events + [Event(keyPath, text, firstInsert[k], LastConnected)];
      k := k + 1;
    }
    assert firstInsert[..k] == firstInsert;
  }

  /** The body of the device-key loop. */
  method DeviceKeyEvents(keyPath: string, textDict: map<string, RegData>, devicekey: RegKey)
    returns (events: seq<RegistryEvent>, newDict: map<string, RegData>)
    ensures newDict == DeviceDict(textDict, devicekey)
    ensures events == DeviceEvents(keyPath, newDict, devicekey)
  {
    newDict := UpdateDict(textDict, devicekey);
    var firstInsert := FirstInsertTimes(devicekey);
    var insertions := InsertionEvents(keyPath, newDict, firstInsert);
    events := [Event(keyPath, newDict, devicekey.lastWritten, LastConnected)] + insertions;
  }

  /** The device-key loop of one subkey; the dictionary carries over from one device key to the next. */
  method DeviceKeysEvents(keyPath: string, base: map<string, RegData>, devicekeys: seq<RegKey>)
    returns (events: seq<RegistryEvent>)
    ensures events == DevicesEvents(keyPath, base, devicekeys)
  {
    events := [];
    var textDict := base;
    var j := 0;
    while j < |devicekeys|
      invariant 0 <= j <= |devicekeys|
      invariant textDict == if j == 0 then base else DeviceDict(base, devicekeys[j - 1])
      invariant events == DevicesEvents(keyPath, base, devicekeys[..j])
    {
      var deviceEvents, newDict := DeviceKeyEvents(keyPath, textDict, devicekeys[j]);
      if j > 0 {
        DeviceDictForgets(base, devicekeys[j - 1], devicekeys[j]);
      }
      DevicesStep(keyPath, base, devicekeys, j);
      events := events + deviceEvents;
      textDict := newDict;
      j := j + 1;
    }
    assert devicekeys[..j] == devicekeys;
  }

  /**
   * The body of the subkey loop: the first-connected event, the split
   * (which leaves the four locals alone when it fails), then the device
   * keys when the locals are bound.
   */
  method SubkeyBody(keyPath: string, subkey: RegKey, fields: Option<Fields>)
    returns (events: seq<RegistryEvent>, newFields: Option<Fields>)
    ensures newFields == Carried(fields, subkey.name)
    ensures SubkeyEvents(keyPath, subkey, fields) == Yielded(events, if newFields.None? then Some(UnboundLocalError) else None)
  {
    var textDict := map["subkey_name" := StrData(subkey.name)];
    events := [Event(keyPath, textDict, subkey.lastWritten, FirstConnected)];
    newFields := fields;
    var split := SplitFields(subkey.name);
    if split.Some? {
      newFields := split;
    }
    if newFields.None? {
      return;
    }
    var f := newFields.value;
    textDict := textDict["device_type" := StrData(f.deviceType)]["vendor" := StrData(f.vendor)];
    textDict := textDict["product" := StrData(f.product)]["revision" := StrData(f.revision)];
    assert textDict == BaseDict(subkey.name, f);
    var deviceEvents := DeviceKeysEvents(keyPath, textDict, subkey.subkeys);
    events := events + deviceEvents;
  }

  /** USBStorPlugin.GetEntries; an UnboundLocalError ends it. */
  method GetEntries(key: RegKey) returns (r: Yielded<RegistryEvent>)
    ensures r == EventsOf(key.path, key.subkeys)
  {
    var events: seq<RegistryEvent> := [];
    var fields: Option<Fields> := None;
    var i := 0;
    while i < |key.subkeys|
      invariant 0 <= i <= |key.subkeys|
      invariant EventsOf(key.path, key.subkeys[..i]) == Yielded(events, None)
      invariant fields == FieldsAfter(key.subkeys[..i])
    {
      SubkeyStep(key.path, key.subkeys, i);
      var subkeyEvents, newFields := SubkeyBody(key.path, key.subkeys[i], fields);
      events := events + subkeyEvents;
      fields := newFields;
      if fields.None? {
        r := Yielded(events, Some(UnboundLocalError));
        PrefixError(key.path, key.subkeys, i + 1);
        return;
      }
      i := i + 1;
    }
    assert key.subkeys[..i] == key.subkeys;
    r := Yielded(events, None);
  }

  // ---------------------------------------------------------------------
  // Properties

  /** One subkey more: its events follow those before it, and the locals take its parts when it has four. */
  lemma SubkeyStep(keyPath: string, subkeys: seq<RegKey>, i: nat)
    requires i < |subkeys|
    ensures EventsOf(keyPath, subkeys[..i + 1]) ==
      if EventsOf(keyPath, subkeys[..i]).error.Some? then EventsOf(keyPath, subkeys[..i])
      else Then(EventsOf(keyPath, subkeys[..i]).events, SubkeyEvents(keyPath, subkeys[i], FieldsAfter(subkeys[..i])))
    ensures FieldsAfter(subkeys[..i + 1]) == Carried(FieldsAfter(subkeys[..i]), subkeys[i].name)
  {
    assert subkeys[..i + 1][..i] == subkeys[..i] && subkeys[..i + 1][i] == subkeys[i];
  }

  /** One device key more: its events follow those before it. */
  lemma DevicesStep(keyPath: string, base: map<string, RegData>, devicekeys: seq<RegKey>, j: nat)
    requires j < |devicekeys|
    ensures DevicesEvents(keyPath, base, devicekeys[..j + 1]) ==
      DevicesEvents(keyPath, base, devicekeys[..j]) + DeviceEvents(keyPath, DeviceDict(base, devicekeys[j]), devicekeys[j])
  {
    assert devicekeys[..j + 1][..j] == devicekeys[..j];
  }

  /** After an exception nothing more is yielded, however many subkeys follow. */
  lemma {:induction false} PrefixError(keyPath: string, subkeys: seq<RegKey>, i: nat)
    requires i <= |subkeys| && EventsOf(keyPath, subkeys[..i]).error.Some?
    ensures EventsOf(keyPath, subkeys) == EventsOf(keyPath, subkeys[..i])
    decreases |subkeys| - i
  {
    if i < |subkeys| {
      SubkeyStep(keyPath, subkeys, i);
      PrefixError(keyPath, subkeys, i + 1);
    } else {
      assert subkeys[..i] == subkeys;
    }
  }

  /** The shared dictionary keeps nothing of the previous device key: every key it set is set again or removed. */
  lemma DeviceDictForgets(base: map<string, RegData>, previous: RegKey, devicekey: RegKey)
    ensures DeviceDict(DeviceDict(base, previous), devicekey) == DeviceDict(base, devicekey)
  {
    DeviceDictKeeps(base, previous);
    DeviceDictOnlyRest(DeviceDict(base, previous), base, devicekey);
  }

  /** The keys a device key sets or removes. */
  const DeviceKeys: set<string> := {"serial", "friendly_name", "parent_id_prefix"}

  /** A device key leaves every other entry of the dictionary as it was. */
  lemma DeviceDictKeeps(d: map<string, RegData>, devicekey: RegKey)
    ensures DeviceDict(d, devicekey) - DeviceKeys == d - DeviceKeys
  {
    var a, b := DeviceDict(d, devicekey) - DeviceKeys, d - DeviceKeys;
    assert a.Keys == b.Keys;
  }

  /** What a device key makes of the dictionary depends only on its other entries. */
  lemma DeviceDictOnlyRest(d1: map<string, RegData>, d2: map<string, RegData>, devicekey: RegKey)
    requires d1 - DeviceKeys == d2 - DeviceKeys
    ensures DeviceDict(d1, devicekey) == DeviceDict(d2, devicekey)
  {
    var a, b := DeviceDict(d1, devicekey), DeviceDict(d2, devicekey);
    assert forall k :: k !in DeviceKeys ==> (k in d1 <==> k in (d1 - DeviceKeys));
    assert a.Keys == b.Keys;
  }

  /**
   * The dictionary of a device key: its name as the serial, friendly_name
   * and parent_id_prefix exactly when the values exist, and the subkey's
   * name and four parts kept.
   */
  lemma DeviceDictFields(name: string, f: Fields, devicekey: RegKey)
    ensures var d := DeviceDict(BaseDict(name, f), devicekey);
      d["serial"] == StrData(devicekey.name) &&
      ("friendly_name" in d <==> GetValue(devicekey.values, "FriendlyName").Some?) &&
      ("parent_id_prefix" in d <==> GetValue(devicekey.values, "ParentIdPrefix").Some?) &&
      d["subkey_name"] == StrData(name) && d["device_type"] == StrData(f.deviceType) &&
      d["vendor"] == StrData(f.vendor) && d["product"] == StrData(f.product) && d["revision"] == StrData(f.revision)
  {
    var b := BaseDict(name, f);
    DeviceDictSets(b, devicekey);
    DeviceDictKeeps(b, devicekey);
    BaseKeysKept();
    var rest := DeviceDict(b, devicekey) - DeviceKeys;
    assert "subkey_name" in rest && "device_type" in rest && "vendor" in rest && "product" in rest && "revision" in rest;
  }

  /** The subkey's name and parts are not among the keys a device key touches. */
  lemma BaseKeysKept()
    ensures "subkey_name" !in DeviceKeys && "device_type" !in DeviceKeys && "vendor" !in DeviceKeys
    ensures "product" !in DeviceKeys && "revision" !in DeviceKeys
  {
  }

  /** A device key sets the serial, and sets or removes the friendly name and the parent id prefix. */
  lemma DeviceDictSets(d: map<string, RegData>, devicekey: RegKey)
    ensures var r := DeviceDict(d, devicekey);
      r["serial"] == StrData(devicekey.name) &&
      ("friendly_name" in r <==> GetValue(devicekey.values, "FriendlyName").Some?) &&
      ("parent_id_prefix" in r <==> GetValue(devicekey.values, "ParentIdPrefix").Some?)
  {
  }

  /** A present FriendlyName's data is what the dictionary holds. */
  lemma FriendlyNameData(base: map<string, RegData>, devicekey: RegKey)
    requires GetValue(devicekey.values, "FriendlyName").Some?
    ensures DeviceDict(base, devicekey)["friendly_name"] == GetValue(devicekey.values, "FriendlyName").value.data
  {
  }

  /** The last-written time of a subkey that exists. */
  function TimeOf(k: Option<RegKey>): set<int>
  {
    if k.Some? then {k.value.lastWritten} else {}
  }

  /**
   * The first-insertion times hold no repeats, and are exactly the
   * last-written times of the Device Parameters, LogConf and Properties
   * subkeys that exist, Device Parameters' first.
   */
  lemma FirstInsertsDistinct(parameters: Option<RegKey>, logConfiguration: Option<RegKey>, properties: Option<RegKey>)
    ensures var ts := FirstInsertsOf(parameters, logConfiguration, properties);
      (forall a, b :: 0 <= a < b < |ts| ==> ts[a] != ts[b]) && |ts| <= 3 &&
      (forall t :: t in ts <==> t in TimeOf(parameters) + TimeOf(logConfiguration) + TimeOf(properties)) &&
      (parameters.Some? ==> ts[0] == parameters.value.lastWritten)
  {
    var initial := if parameters.Some? then [parameters.value.lastWritten] else [];
    assert forall t :: t in initial <==> t in TimeOf(parameters);
    var middle := AddNew(initial, logConfiguration);
    AddNewDistinct(initial, logConfiguration);
    AddNewDistinct(middle, properties);
    var ts := AddNew(middle, properties);
    assert ts == FirstInsertsOf(parameters, logConfiguration, properties);
    if parameters.Some? {
      assert ts[0] == middle[0] == initial[0];
    }
  }

  /** AddNew keeps a list free of repeats and adds exactly the key's time. */
  lemma AddNewDistinct(times: seq<int>, k: Option<RegKey>)
    requires forall a, b :: 0 <= a < b < |times| ==> times[a] != times[b]
    ensures var r := AddNew(times, k);
      (forall a, b :: 0 <= a < b < |r| ==> r[a] != r[b]) && |times| <= |r| <= |times| + 1 && r[..|times|] == times &&
      forall t :: t in r <==> t in times || t in TimeOf(k)
  {
  }

  /** A device key gives one last-connected event at its own time, then one per first-insertion time. */
  lemma DeviceEventsShape(keyPath: string, text: map<string, RegData>, devicekey: RegKey)
    ensures var es := DeviceEvents(keyPath, text, devicekey);
      |es| == 1 + |FirstInserts(devicekey)| && es[0].timestamp == devicekey.lastWritten &&
      (forall k :: 0 <= k < |es| ==> es[k].usage == LastConnected && es[k].text == text && es[k].keyPath == keyPath) &&
      forall k :: 1 <= k < |es| ==> es[k].timestamp == FirstInserts(devicekey)[k - 1]
  {
  }

  /** A subkey's first event is its first-connected event, before any device key's. */
  lemma FirstConnectedFirst(keyPath: string, subkey: RegKey, prior: Option<Fields>)
    ensures var y := SubkeyEvents(keyPath, subkey, prior);
      |y.events| >= 1 && y.events[0] == Event(keyPath, map["subkey_name" := StrData(subkey.name)], subkey.lastWritten, FirstConnected) &&
      forall k :: 1 <= k < |y.events| ==> y.events[k].usage == LastConnected
  {
    match Carried(prior, subkey.name)
    case None =>
    case Some(f) =>
      DevicesLastConnected(keyPath, BaseDict(subkey.name, f), subkey.subkeys);
  }

  /** Device keys' events are all last-connected ones. */
  lemma {:induction false} DevicesLastConnected(keyPath: string, base: map<string, RegData>, devicekeys: seq<RegKey>)
    ensures forall k :: 0 <= k < |DevicesEvents(keyPath, base, devicekeys)| ==>
      DevicesEvents(keyPath, base, devicekeys)[k].usage == LastConnected
  {
    if devicekeys != [] {
      var last := devicekeys[|devicekeys| - 1];
      DevicesLastConnected(keyPath, base, devicekeys[..|devicekeys| - 1]);
      DeviceEventsShape(keyPath, DeviceDict(base, last), last);
    }
  }

  /** Four '&'-free parts joined by '&' split back into themselves. */
  lemma SplitJoined(a: string, b: string, c: string, d: string)
    requires Lacks(a, '&') && Lacks(b, '&') && Lacks(c, '&') && Lacks(d, '&')
    ensures SplitFields(a + ['&'] + (b + ['&'] + (c + ['&'] + d))) == Some(Fields(a, b, c, d))
  {
    SplitNone(d, '&');
    SplitFirst(c, '&', d);
    SplitFirst(b, '&', c + ['&'] + d);
    SplitFirst(a, '&', b + ['&'] + (c + ['&'] + d));
  }

  /** A subkey name without '&' does not split: the parts of the subkeys before it are reused. */
  lemma StaleFields(keyPath: string, subkey: RegKey, prior: Fields)
    requires Lacks(subkey.name, '&')
    ensures Carried(Some(prior), subkey.name) == Some(prior)
    ensures SubkeyEvents(keyPath, subkey, Some(prior)).error.None?
  {
    SplitNone(subkey.name, '&');
  }

  /** When the very first subkey's name does not split, only its first-connected event is yielded, then UnboundLocalError. */
  lemma UnboundAtFirst(keyPath: string, subkeys: seq<RegKey>)
    requires subkeys != [] && Lacks(subkeys[0].name, '&')
    ensures EventsOf(keyPath, subkeys) ==
      Yielded([Event(keyPath, map["subkey_name" := StrData(subkeys[0].name)], subkeys[0].lastWritten, FirstConnected)],
              Some(UnboundLocalError))
  {
    SplitNone(subkeys[0].name, '&');
    SubkeyStep(keyPath, subkeys, 0);
    assert subkeys[..0] == [];
    PrefixError(keyPath, subkeys, 1);
  }
}
