/**
 * The AirPort plist plugin (plaso/parsers/plist_plugins/airport.py): one
 * event per remembered WiFi network.
 */
module PlistAirport {
  import opened Common
  import opened PlistInterface

  const PLUGIN: Plugin := Plugin("com.apple.airport.preferences.plist", {"RememberedNetworks"})
  const ROOT: string := "/RememberedNetworks"

  function Description(ssid: PValue, security: PValue): string
  {
    "[WiFi] Connected to network: <" + Str(ssid) + "> using security " + Str(security)
  }

  /** wifi['SSIDString'], wifi['SecurityType'] and wifi['LastConnected'] of one network. */
  function NetworkEvent(wifi: PValue): (r: Result<PlistEvent>)
    ensures r.Ok? ==> (wifi.PDict? && r.value.root == ROOT && r.value.key == "item"
                       && Some(r.value.time) == Get(wifi.items, "LastConnected"))
    ensures r.Err? ==> r.exc == (if wifi.PDict? then KeyError else TypeError)
  {
    if !wifi.PDict? then Err(TypeError)
    else
      var ssid := Get(wifi.items, "SSIDString");
      var security := Get(wifi.items, "SecurityType");
      var connected := Get(wifi.items, "LastConnected");
      if ssid.None? || security.None? || connected.None? then Err(KeyError)
      else Ok(PlistEvent(ROOT, "item", connected.value, Some(Description(ssid.value, security.value))))
  }

  /** The loop over the networks: one event per decoded item, stopping at the first exception. */
  function EachFrom<E>(xs: seq<PValue>, i: nat, decode: PValue -> Result<E>): Yielded<E>
    requires i <= |xs|
    decreases |xs| - i
  {
    if i == |xs| then Yielded([], None)
    else match decode(xs[i])
      case Err(e) => Yielded([], Some(e))
      case Ok(ev) => Then([ev], EachFrom(xs, i + 1, decode))
  }

  /** AirportPlugin.GetEntries over the matched keys. */
  function GetEntries(m: map<string, PValue>): Yielded<PlistEvent>
  {
    if "RememberedNetworks" !in m then Yielded([], Some(KeyError))
    else match Iterate(m["RememberedNetworks"])
      case Err(e) => Yielded([], Some(e))
      case Ok(networks) => EachFrom(networks, 0, NetworkEvent)
  }

  /** When every item decodes, there is exactly one event per item, in order. */
  lemma {:induction false} OneEventEach<E>(xs: seq<PValue>, i: nat, decode: PValue -> Result<E>)
    requires i <= |xs|
    requires forall k :: i <= k < |xs| ==> decode(xs[k]).Ok?
    ensures var r := EachFrom(xs, i, decode);
      && r.error.None? && |r.events| == |xs| - i
      && forall k :: 0 <= k < |r.events| ==> r.events[k] == decode(xs[i + k]).value
    decreases |xs| - i
  {
    if i < |xs| {
      OneEventEach(xs, i + 1, decode);
      var r := EachFrom(xs, i, decode);
      var rest := EachFrom(xs, i + 1, decode);
      assert r.events == [decode(xs[i]).value] + rest.events;
      forall k | 0 <= k < |r.events|
        ensures r.events[k] == decode(xs[i + k]).value
      {
        if k > 0 { assert r.events[k] == rest.events[k - 1]; }
      }
    }
  }

  /** An item that fails to decode ends the loop with its error, after one event per item before it. */
  lemma {:induction false} FirstFaultEnds<E>(xs: seq<PValue>, i: nat, j: nat, decode: PValue -> Result<E>)
    requires i <= j < |xs| && decode(xs[j]).Err?
    requires forall k :: i <= k < j ==> decode(xs[k]).Ok?
    ensures EachFrom(xs, i, decode).error == Some(decode(xs[j]).exc)
    ensures |EachFrom(xs, i, decode).events| == j - i
    decreases j - i
  {
    if i < j {
      FirstFaultEnds(xs, i + 1, j, decode);
    }
  }

  /**
   * When every remembered network has its three keys, there is one event
   * per network, rooted at /RememberedNetworks with key 'item', at the
   * network's LastConnected time.
   */
  lemma OneEventPerNetwork(networks: seq<PValue>)
    requires forall k :: 0 <= k < |networks| ==> NetworkEvent(networks[k]).Ok?
    ensures var r := EachFrom(networks, 0, NetworkEvent);
      && r.error.None? && |r.events| == |networks|
      && forall k :: 0 <= k < |networks| ==>
           && r.events[k].root == ROOT && r.events[k].key == "item"
           && Some(r.events[k].time) == Get(networks[k].items, "LastConnected")
  {
    OneEventEach(networks, 0, NetworkEvent);
  }
}
