/**
 * The Terminal Server Client registry plugins: the client plugin gives one
 * event per server subkey with its username hint, and the MRU plugin one
 * event per named string value, only MRU0 at the key's last-written time.
 */
module TerminalServer {
  import opened Common
  import opened WinReg

  const DESCRIPTION := "RDP Connection"

  // ---------------------------------------------------------------------
  // TerminalServerClientPlugin

  /** The username of a server subkey: its UsernameHint when that is a non-empty string, "None" otherwise. */
  function Username(subkey: RegKey): RegData
  {
    var hint := GetValue(subkey.values, "UsernameHint");
    if hint.Some? && DataTruthy(hint.value.data) && hint.value.data.StrData? then hint.value.data
    else StrData("None")
  }

  /** The event of one server subkey: at the key's (not the subkey's) last-written time. */
  function ServerEvent(key: RegKey, subkey: RegKey): RegistryEvent
  {
    RegistryEvent(key.path, map["UsernameHint" := Username(subkey)], key.lastWritten, NoUsage, SourceAppend(DESCRIPTION))
  }

  /** The events of some server subkeys, in order. */
  function ServerEvents(key: RegKey, subkeys: seq<RegKey>): seq<RegistryEvent>
  {
    if subkeys == [] then [] else [ServerEvent(key, subkeys[0])] + ServerEvents(key, subkeys[1..])
  }

  /** TerminalServerClientPlugin.GetEntries. */
  function ClientEntries(key: RegKey): seq<RegistryEvent>
  {
    ServerEvents(key, key.subkeys)
  }

  /** One event per subkey, in order, each at the key's last-written time with the subkey's username. */
  lemma {:induction false} OneEventPerServer(key: RegKey, subkeys: seq<RegKey>)
    ensures |ServerEvents(key, subkeys)| == |subkeys|
    ensures forall i :: 0 <= i < |subkeys| ==>
      ServerEvents(key, subkeys)[i].timestamp == key.lastWritten &&
      ServerEvents(key, subkeys)[i].keyPath == key.path &&
      ServerEvents(key, subkeys)[i].text == map["UsernameHint" := Username(subkeys[i])]
  {
    if subkeys != [] {
      OneEventPerServer(key, subkeys[1..]);
      assert forall i :: 1 <= i < |subkeys| ==> ServerEvents(key, subkeys)[i] == ServerEvents(key, subkeys[1..])[i - 1];
    }
  }

  /** The username is always a non-empty string; it is the hint itself when the hint is a non-empty string. */
  lemma UsernameCases(subkey: RegKey)
    ensures Username(subkey).StrData? && Username(subkey).s != []
    ensures GetValue(subkey.values, "UsernameHint").Some? ==>
      var d := GetValue(subkey.values, "UsernameHint").value.data;
      (d.StrData? && d.s != [] ==> Username(subkey) == d) &&
      (!d.StrData? || d.s == [] ==> Username(subkey) == StrData("None"))
    ensures GetValue(subkey.values, "UsernameHint").None? ==> Username(subkey) == StrData("None")
  {
  }

  // ---------------------------------------------------------------------
  // TerminalServerClientMRUPlugin

  /** The event of one MRU value, or None when it is the default value or not a non-empty string. */
  function MruValueEvent(key: RegKey, v: RegValue): Option<RegistryEvent>
  {
    if v.name == [] then None
    else if !DataTruthy(v.data) || !v.data.StrData? then None
    else
      var timestamp := if v.name == "MRU0" then key.lastWritten else 0;
      Some(RegistryEvent(key.path, map[v.name := v.data], timestamp, NoUsage, SourceAppend(DESCRIPTION)))
  }

  /** TerminalServerClientMRUPlugin.GetEntries: the events of the key's values, in order. */
  function MruEntries(key: RegKey): (r: seq<RegistryEvent>)
    ensures |r| <= |key.values|
  {
    Collect(v => MruValueEvent(key, v), key.values)
  }

  /** A value gives an event exactly when it is named and holds a non-empty string; the event maps the name to it. */
  lemma MruValueCases(key: RegKey, v: RegValue)
    ensures MruValueEvent(key, v).Some? <==> v.name != [] && v.data.StrData? && v.data.s != []
    ensures MruValueEvent(key, v).Some? ==>
      MruValueEvent(key, v).value.text == map[v.name := v.data] && MruValueEvent(key, v).value.keyPath == key.path
  {
  }

  /** Only MRU0 has the key's last-written time; every other value's event is at 0. */
  lemma MruTimestamp(key: RegKey, v: RegValue)
    requires MruValueEvent(key, v).Some?
    ensures MruValueEvent(key, v).value.timestamp == if v.name == "MRU0" then key.lastWritten else 0
  {
  }

  /** Every event of the key comes from one named non-empty string value, and is timed only when that is MRU0. */
  lemma MruEventsFromValues(key: RegKey, i: nat)
    requires i < |MruEntries(key)|
    ensures exists j ::
      0 <= j < |key.values| && MruValueEvent(key, key.values[j]) == Some(MruEntries(key)[i]) &&
      (MruEntries(key)[i].timestamp != 0 ==> key.values[j].name == "MRU0")
  {
    var f := v => MruValueEvent(key, v);
    CollectFrom(f, key.values, i);
    var j :| 0 <= j < |key.values| && f(key.values[j]) == Some(MruEntries(key)[i]);
    MruTimestamp(key, key.values[j]);
  }

  /** The default value, an empty string and integer data are all skipped. */
  lemma MruSkips(key: RegKey, name: string, n: nat)
    ensures MruValueEvent(key, RegValue("", StrData("x"))).None?
    ensures MruValueEvent(key, RegValue(name, StrData(""))).None?
    ensures MruValueEvent(key, RegValue(name, IntData(n))).None?
  {
  }
}
