/**
 * The Bluetooth plist plugin (plaso/parsers/plist_plugins/bluetooth.py):
 * one event per paired device seen in discovery, and one per set
 * LastInquiryUpdate, LastNameUpdate and LastServicesUpdate time.
 */
module PlistBluetooth {
  import opened Common
  import opened PlistInterface

  const PLUGIN: Plugin := Plugin("com.apple.bluetooth.plist", {"DeviceCache", "PairedDevices"})
  const ROOT: string := "/DeviceCache"

  /** `x in container`: list membership, dictionary key, or substring. */
  function Member(x: string, container: PValue): Result<bool>
  {
    match container
      case PList(elems) => Ok(PStr(x) in elems)
      case PTuple(elems) => Ok(PStr(x) in elems)
      case PDict(items) => Ok(x in KeysOf(items))
      case PStr(s) => Ok(Contains(s, x))
      case _ => Err(TypeError)
  }

  /**
   * The device name as the paired description formats it and as the other
   * descriptions join it: 'Name:<n>' for a non-empty string; a falsy
   * non-string name is formatted as text but dropped from the joins; a
   * truthy non-string name makes the join raise TypeError.
   */
  function DeviceName(items: seq<(string, PValue)>): Result<(string, string)>
  {
    match Get(items, "Name")
      case None => Ok(("", ""))
      case Some(PStr(s)) => if s == "" then Ok(("", "")) else Ok(("Name:" + s, "Name:" + s))
      case Some(v) => if Truthy(v) then Err(TypeError) else Ok((Str(v), ""))
  }

  /** ' '.join(filter(None, (prefix, name))) */
  function Joined(prefix: string, name: string): string
  {
    if name == "" then prefix else prefix + " " + name
  }

  /** The event for one of the update times, when it is set. */
  function Update(items: seq<(string, PValue)>, device: string, field: string, prefix: string, name: string): seq<PlistEvent>
  {
    var v := Get(items, field);
    if v.Some? && Truthy(v.value) then [PlistEvent(ROOT, device + "/" + field, v.value, Some(Joined(prefix, name)))]
    else []
  }

  /** The events of one DeviceCache entry; paired is the PairedDevices value, None when it is missing. */
  function DeviceEvents(device: string, value: PValue, paired: Option<PValue>): Yielded<PlistEvent>
  {
    if !value.PDict? then Yielded([], Some(AttributeError))
    else
      var items := value.items;
      match DeviceName(items)
        case Err(e) => Yielded([], Some(e))
        case Ok((pairedName, joinName)) =>
          if paired.None? then Yielded([], Some(KeyError))
          else
            match Member(device, paired.value)
              case Err(e) => Yielded([], Some(e))
              case Ok(isPaired) => Yielded(DeviceRecords(device, items, pairedName, joinName, isPaired), None)
  }

  /** The events of a device in order: paired, discovery, name set, services updated. */
  function DeviceRecords(device: string, items: seq<(string, PValue)>, pairedName: string, joinName: string, isPaired: bool): seq<PlistEvent>
  {
    var p := if isPaired && "LastInquiryUpdate" in KeysOf(items)
      then [PlistEvent(ROOT, device, Get(items, "LastInquiryUpdate").value, Some("Paired:True " + pairedName))]
      else [];
    p + Update(items, device, "LastInquiryUpdate", "Bluetooth Discovery", joinName)
      + Update(items, device, "LastNameUpdate", "Device Name Set", joinName)
      + Update(items, device, "LastServicesUpdate", "Services Updated", joinName)
  }

  function DevicesFrom(cache: seq<(string, PValue)>, i: nat, paired: Option<PValue>): Yielded<PlistEvent>
    requires i <= |cache|
    decreases |cache| - i
  {
    if i == |cache| then Yielded([], None)
    else
      var d := DeviceEvents(cache[i].0, cache[i].1, paired);
      if d.error.Some? then d
      else Then(d.events, DevicesFrom(cache, i + 1, paired))
  }

  /** BluetoothPlugin.GetEntries over the matched keys. */
  function GetEntries(m: map<string, PValue>): Yielded<PlistEvent>
  {
    if "DeviceCache" !in m then Yielded([], Some(KeyError))
    else if !m["DeviceCache"].PDict? then Yielded([], Some(AttributeError))
    else DevicesFrom(m["DeviceCache"].items, 0, if "PairedDevices" in m then Some(m["PairedDevices"]) else None)
  }

  /** Plugin selection followed by GetEntries. */
  function Parse(plistName: Option<string>, top: PValue): Yielded<PlistEvent>
  {
    match ProcessOf(PLUGIN, plistName, top)
      case Err(e) => Yielded([], Some(e))
      case Ok(m) => GetEntries(m)
  }

  lemma DeviceEventsRooted(device: string, value: PValue, paired: Option<PValue>)
    ensures forall e :: e in DeviceEvents(device, value, paired).events ==> e.root == ROOT
  {
  }

  lemma {:induction false} DevicesFromRooted(cache: seq<(string, PValue)>, i: nat, paired: Option<PValue>)
    requires i <= |cache|
    ensures forall e :: e in DevicesFrom(cache, i, paired).events ==> e.root == ROOT
    decreases |cache| - i
  {
    if i < |cache| {
      DeviceEventsRooted(cache[i].0, cache[i].1, paired);
      DevicesFromRooted(cache, i + 1, paired);
    }
  }

  /** Every event is rooted at /DeviceCache. */
  lemma AllRooted(plistName: Option<string>, top: PValue)
    ensures forall e :: e in Parse(plistName, top).events ==> e.root == ROOT
  {
    var r := ProcessOf(PLUGIN, plistName, top);
    if r.Ok? && "DeviceCache" in r.value && r.value["DeviceCache"].PDict? {
      DevicesFromRooted(r.value["DeviceCache"].items, 0, if "PairedDevices" in r.value then Some(r.value["PairedDevices"]) else None);
    }
  }

  /** Does some event carry this key? */
  predicate HasKey(events: seq<PlistEvent>, key: string)
  {
    exists e :: e in events && e.key == key
  }

  lemma SuffixedKeysDiffer(device: string, f: string, g: string)
    requires f != g
    ensures device + "/" + f != device + "/" + g && device + "/" + f != device
  {
    var a := device + "/" + f;
    var b := device + "/" + g;
    assert a[|device| + 1..] == f && b[|device| + 1..] == g;
    assert |a| > |device|;
  }

  lemma HasKeyConcat(a: seq<PlistEvent>, b: seq<PlistEvent>, key: string)
    ensures HasKey(a + b, key) <==> HasKey(a, key) || HasKey(b, key)
  {
    if HasKey(a + b, key) {
      var e :| e in a + b && e.key == key;
      if e in a { assert HasKey(a, key); } else { assert HasKey(b, key); }
    }
    if HasKey(a, key) {
      var e :| e in a && e.key == key;
      assert e in a + b;
    }
    if HasKey(b, key) {
      var e :| e in b && e.key == key;
      assert e in a + b;
    }
  }

  /** An update contributes at most one event, keyed device/field, and only when its time is set. */
  lemma UpdateKey(items: seq<(string, PValue)>, device: string, field: string, prefix: string, name: string)
    ensures forall e :: e in Update(items, device, field, prefix, name) ==> e.key == device + "/" + field
    ensures HasKey(Update(items, device, field, prefix, name), device + "/" + field) <==>
      Get(items, field).Some? && Truthy(Get(items, field).value)
  {
    var u := Update(items, device, field, prefix, name);
    if u != [] { assert u[0] in u; }
  }

  predicate IsUpdateField(f: string)
  {
    f == "LastInquiryUpdate" || f == "LastNameUpdate" || f == "LastServicesUpdate"
  }

  /** The records split into the optional Paired event and the three updates. */
  lemma RecordsParts(device: string, items: seq<(string, PValue)>, pairedName: string, joinName: string, isPaired: bool, key: string)
    ensures var p := if isPaired && "LastInquiryUpdate" in KeysOf(items)
        then [PlistEvent(ROOT, device, Get(items, "LastInquiryUpdate").value, Some("Paired:True " + pairedName))]
        else [];
      HasKey(DeviceRecords(device, items, pairedName, joinName, isPaired), key) <==>
        || HasKey(p, key)
        || HasKey(Update(items, device, "LastInquiryUpdate", "Bluetooth Discovery", joinName), key)
        || HasKey(Update(items, device, "LastNameUpdate", "Device Name Set", joinName), key)
        || HasKey(Update(items, device, "LastServicesUpdate", "Services Updated", joinName), key)
  {
    var p := if isPaired && "LastInquiryUpdate" in KeysOf(items)
      then [PlistEvent(ROOT, device, Get(items, "LastInquiryUpdate").value, Some("Paired:True " + pairedName))]
      else [];
    var q := Update(items, device, "LastInquiryUpdate", "Bluetooth Discovery", joinName);
    var n := Update(items, device, "LastNameUpdate", "Device Name Set", joinName);
    var s := Update(items, device, "LastServicesUpdate", "Services Updated", joinName);
    assert DeviceRecords(device, items, pairedName, joinName, isPaired) == p + q + n + s;
    HasKeyConcat(p + q + n, s, key);
    HasKeyConcat(p + q, n, key);
    HasKeyConcat(p, q, key);
  }

  /** The Paired event appears exactly when the device is paired and has a LastInquiryUpdate key. */
  lemma PairedChoice(device: string, items: seq<(string, PValue)>, pairedName: string, joinName: string, isPaired: bool)
    ensures HasKey(DeviceRecords(device, items, pairedName, joinName, isPaired), device) <==>
      isPaired && "LastInquiryUpdate" in KeysOf(items)
  {
    RecordsParts(device, items, pairedName, joinName, isPaired, device);
    UpdateKey(items, device, "LastInquiryUpdate", "Bluetooth Discovery", joinName);
    UpdateKey(items, device, "LastNameUpdate", "Device Name Set", joinName);
    UpdateKey(items, device, "LastServicesUpdate", "Services Updated", joinName);
    SuffixedKeysDiffer(device, "LastInquiryUpdate", "LastNameUpdate");
    SuffixedKeysDiffer(device, "LastNameUpdate", "LastServicesUpdate");
    SuffixedKeysDiffer(device, "LastServicesUpdate", "LastInquiryUpdate");
    if isPaired && "LastInquiryUpdate" in KeysOf(items) {
      var e := PlistEvent(ROOT, device, Get(items, "LastInquiryUpdate").value, Some("Paired:True " + pairedName));
      assert e in [e];
    }
  }

  /** Each update event appears exactly when its time is set. */
  lemma UpdateChoice(device: string, items: seq<(string, PValue)>, pairedName: string, joinName: string, isPaired: bool, f: string)
    requires IsUpdateField(f)
    ensures HasKey(DeviceRecords(device, items, pairedName, joinName, isPaired), device + "/" + f) <==>
      Get(items, f).Some? && Truthy(Get(items, f).value)
  {
    var key := device + "/" + f;
    RecordsParts(device, items, pairedName, joinName, isPaired, key);
    UpdateKey(items, device, "LastInquiryUpdate", "Bluetooth Discovery", joinName);
    UpdateKey(items, device, "LastNameUpdate", "Device Name Set", joinName);
    UpdateKey(items, device, "LastServicesUpdate", "Services Updated", joinName);
    SuffixedKeysDiffer(device, f, if f == "LastInquiryUpdate" then "LastNameUpdate" else "LastInquiryUpdate");
    SuffixedKeysDiffer(device, f, if f == "LastServicesUpdate" then "LastNameUpdate" else "LastServicesUpdate");
    SuffixedKeysDiffer(device, f, if f == "LastNameUpdate" then "LastServicesUpdate" else "LastNameUpdate");
  }

  /** A device whose name and pairing decode yields its records and no error. */
  lemma DeviceEventsRecords(device: string, value: PValue, paired: PValue)
    requires value.PDict? && DeviceName(value.items).Ok? && Member(device, paired).Ok?
    ensures DeviceEvents(device, value, Some(paired)) ==
      Yielded(DeviceRecords(device, value.items, DeviceName(value.items).value.0, DeviceName(value.items).value.1,
                            Member(device, paired).value), None)
  {
  }

  /** A paired event's description is 'Paired:True ' followed by the device name. */
  lemma PairedDescription(device: string, items: seq<(string, PValue)>, pairedName: string, joinName: string, isPaired: bool)
    ensures forall e :: e in DeviceRecords(device, items, pairedName, joinName, isPaired) && e.key == device ==>
      e.desc == Some("Paired:True " + pairedName)
  {
    var p := if isPaired && "LastInquiryUpdate" in KeysOf(items)
      then [PlistEvent(ROOT, device, Get(items, "LastInquiryUpdate").value, Some("Paired:True " + pairedName))]
      else [];
    var q := Update(items, device, "LastInquiryUpdate", "Bluetooth Discovery", joinName);
    var n := Update(items, device, "LastNameUpdate", "Device Name Set", joinName);
    var s := Update(items, device, "LastServicesUpdate", "Services Updated", joinName);
    assert DeviceRecords(device, items, pairedName, joinName, isPaired) == p + q + n + s;
    UpdateKey(items, device, "LastInquiryUpdate", "Bluetooth Discovery", joinName);
    UpdateKey(items, device, "LastNameUpdate", "Device Name Set", joinName);
    UpdateKey(items, device, "LastServicesUpdate", "Services Updated", joinName);
    SuffixedKeysDiffer(device, "LastInquiryUpdate", "LastNameUpdate");
    SuffixedKeysDiffer(device, "LastNameUpdate", "LastServicesUpdate");
    SuffixedKeysDiffer(device, "LastServicesUpdate", "LastInquiryUpdate");
  }
}
