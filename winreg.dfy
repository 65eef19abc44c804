/**
 * The Windows Registry as the registry plugins see it: keys with a path,
 * a last-written time, named values and subkeys, and the registry event
 * each plugin yields.
 */
module WinReg {
  import opened Common

  /** A value's data: a string, an integer (registry integers are unsigned), binary data, or none. */
  datatype RegData = NoData | StrData(s: string) | IntData(n: nat) | BinData(b: seq<byte>)

  /** `not value.data` is false: a non-empty string, a non-zero integer, non-empty binary data. */
  predicate DataTruthy(d: RegData)
  {
    match d
    case NoData => false
    case StrData(s) => s != []
    case IntData(n) => n != 0
    case BinData(b) => b != []
  }

  /** A named value of a key; the default value has the empty name. */
  datatype RegValue = RegValue(name: string, data: RegData)

  /** A key: its name, its path, its last-written time (a plaso timestamp), its values and subkeys in order. */
  datatype RegKey = RegKey(name: string, path: string, lastWritten: int, values: seq<RegValue>, subkeys: seq<RegKey>)

  /** key.GetValue(name): the first value with that name, if any. */
  function GetValue(values: seq<RegValue>, name: string): (r: Option<RegValue>)
    ensures r.Some? ==> r.value in values && r.value.name == name
    ensures r.None? ==> forall i :: 0 <= i < |values| ==> values[i].name != name
  {
    if values == [] then None
    else if values[0].name == name then Some(values[0])
    else GetValue(values[1..], name)
  }

  /** key.GetSubkey(name): the first subkey with that name, if any. */
  function GetSubkey(subkeys: seq<RegKey>, name: string): (r: Option<RegKey>)
    ensures r.Some? ==> r.value in subkeys && r.value.name == name
    ensures r.None? ==> forall i :: 0 <= i < |subkeys| ==> subkeys[i].name != name
  {
    if subkeys == [] then None
    else if subkeys[0].name == name then Some(subkeys[0])
    else GetSubkey(subkeys[1..], name)
  }

  /** The usage (timestamp description) given to a registry event, when one is given. */
  datatype Usage = NoUsage | FirstConnected | LastConnected

  /** WinRegistryEvent: the key path, the text dictionary, the timestamp, the usage and the source suffix. */
  datatype RegistryEvent = RegistryEvent(
    keyPath: string, text: map<string, RegData>, timestamp: int, usage: Usage, sourceAppend: string)

  /** The source_append argument: ': ' and the plugin's description. */
  function SourceAppend(description: string): (r: string)
    ensures |r| == 2 + |description| && r[2..] == description
  {
    ": " + description
  }

  // ---------------------------------------------------------------------
  // A loop over a key's values that yields at most one event per value

  /** The events a per-value step gives over values, in order. */
  function Collect(f: RegValue -> Option<RegistryEvent>, values: seq<RegValue>): (r: seq<RegistryEvent>)
    ensures |r| <= |values|
  {
    if values == [] then []
    else
      var rest := Collect(f, values[1..]);
      match f(values[0])
      case Some(e) => [e] + rest
      case None => rest
  }

  /** The events of two runs of values are those of each, in order. */
  lemma {:induction false} CollectConcat(f: RegValue -> Option<RegistryEvent>, a: seq<RegValue>, b: seq<RegValue>)
    ensures Collect(f, a + b) == Collect(f, a) + Collect(f, b)
  {
    if a == [] {
      assert a + b == b;
    } else {
      assert (a + b)[0] == a[0] && (a + b)[1..] == a[1..] + b;
      CollectConcat(f, a[1..], b);
    }
  }

  /** Each collected event is the step's event of one of the values. */
  lemma {:induction false} CollectFrom(f: RegValue -> Option<RegistryEvent>, values: seq<RegValue>, i: nat)
    requires i < |Collect(f, values)|
    ensures exists j :: 0 <= j < |values| && f(values[j]) == Some(Collect(f, values)[i])
  {
    var rest := Collect(f, values[1..]);
    if f(values[0]).Some? && i == 0 {
      assert f(values[0]) == Some(Collect(f, values)[0]);
    } else {
      var i' := if f(values[0]).Some? then i - 1 else i;
      assert Collect(f, values)[i] == rest[i'];
      CollectFrom(f, values[1..], i');
      var j :| 0 <= j < |values[1..]| && f(values[1..][j]) == Some(rest[i']);
      assert values[1..][j] == values[j + 1];
    }
  }

  /** A value the step skips adds nothing: removing it leaves the events unchanged. */
  lemma CollectSkip(f: RegValue -> Option<RegistryEvent>, a: seq<RegValue>, v: RegValue, b: seq<RegValue>)
    requires f(v).None?
    ensures Collect(f, a + [v] + b) == Collect(f, a + b)
  {
    CollectConcat(f, a + [v], b);
    CollectConcat(f, a, [v]);
    CollectConcat(f, a, b);
    assert [v][1..] == [];
  }
}
