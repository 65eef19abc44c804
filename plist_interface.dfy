/**
 * The plist plugin interface (plaso/parsers/plist_plugins/interface.py):
 * plugin selection by file name and top-level keys, the RecurseKey
 * flattening of nested dictionaries and lists, the GetKeys helpers, and
 * the in-memory FakeFile.
 *
 * A dictionary is a sequence of (key, value) pairs in its iteration order;
 * lookups take the first pair with the key.
 */
module PlistInterface {
  import opened Common

  /** A plist value; PDate carries a timestamp in microseconds, PNone is Python's None. */
  datatype PValue =
    | PDict(items: seq<(string, PValue)>)
    | PList(elems: seq<PValue>)
    | PTuple(elems: seq<PValue>)
    | PStr(s: string)
    | PInt(i: int)
    | PBool(b: bool)
    | PDate(t: int)
    | PData(d: seq<byte>)
    | PNone

  function KeysOf(items: seq<(string, PValue)>): set<string>
  {
    set i | 0 <= i < |items| :: items[i].0
  }

  /** d.get(k): the value of the first pair with key k. */
  function Get(items: seq<(string, PValue)>, k: string): (r: Option<PValue>)
    ensures r.Some? <==> k in KeysOf(items)
    ensures r.Some? ==> exists i :: 0 <= i < |items| && items[i] == (k, r.value)
  {
    if items == [] then None
    else if items[0].0 == k then (assert items[0] == (k, items[0].1); Some(items[0].1))
    else
      var r := Get(items[1..], k);
      assert KeysOf(items) == {items[0].0} + KeysOf(items[1..]) by {
        forall x | x in KeysOf(items) ensures x in {items[0].0} + KeysOf(items[1..]) {
          var i :| 0 <= i < |items| && items[i].0 == x;
          if i > 0 { assert items[1..][i - 1].0 == x; }
        }
      }
      if r.Some? then
        var j :| 0 <= j < |items[1..]| && items[1..][j] == (k, r.value);
        assert items[j + 1] == (k, r.value);
        r
      else r
  }

  /** Python truthiness of a plist value. */
  predicate Truthy(v: PValue)
  {
    match v
      case PDict(items) => items != []
      case PList(elems) => elems != []
      case PTuple(elems) => elems != []
      case PStr(s) => s != ""
      case PInt(i) => i != 0
      case PBool(b) => b
      case PDate(_) => true
      case PData(d) => d != []
      case PNone => false
  }

  /** str(v) for strings, integers, booleans and None; other kinds render as a placeholder. */
  function Str(v: PValue): string
  {
    match v
      case PStr(s) => s
      case PInt(i) => IntToStr(i)
      case PBool(b) => if b then "True" else "False"
      case PNone => "None"
      case _ => "<value>"
  }

  /** What `for x in v` iterates: elements of a list or tuple, keys of a dictionary, characters of a string. */
  function Iterate(v: PValue): (r: Result<seq<PValue>>)
    ensures (v.PList? || v.PTuple?) ==> r == Ok(v.elems)
    ensures (v.PInt? || v.PBool? || v.PDate? || v.PNone?) ==> r == Err(TypeError)
  {
    match v
      case PList(elems) => Ok(elems)
      case PTuple(elems) => Ok(elems)
      case PDict(items) => Ok(seq(|items|, i requires 0 <= i < |items| => PStr(items[i].0)))
      case PStr(s) => Ok(seq(|s|, i requires 0 <= i < |s| => PStr([s[i]])))
      case PData(d) => Ok(seq(|d|, i requires 0 <= i < |d| => PStr([d[i] as char])))
      case _ => Err(TypeError)
  }

  /** A plist event: root, key, the datetime value and an optional description. */
  datatype PlistEvent = PlistEvent(root: string, key: string, time: PValue, desc: Option<string>)


  // ---------------------------------------------------------------------
  // RecurseKey

  /** One (root, key, value) tuple yielded by RecurseKey. */
  datatype Triple = Triple(root: string, key: string, value: PValue)

  /**
   * RecurseKey(recur_item, root, depth): nothing below depth 1; lists and
   * tuples are flattened at the same depth; each dictionary item yields its
   * own tuple and then the tuples of the dictionaries in its value, one
   * level deeper under root + '/' + key.
   */
  function RecurseKey(v: PValue, root: string, depth: int): seq<Triple>
    decreases v, 1
  {
    if depth < 1 then []
    else match v
      case PList(_) => RecurseElems(v, 0, root, depth)
      case PTuple(_) => RecurseElems(v, 0, root, depth)
      case PDict(_) => RecurseItems(v, 0, root, depth)
      case _ => []
  }

  function RecurseElems(v: PValue, i: nat, root: string, depth: int): seq<Triple>
    requires (v.PList? || v.PTuple?) && i <= |v.elems|
    decreases v, 0, |v.elems| - i
  {
    if i == |v.elems| then []
    else RecurseKey(v.elems[i], root, depth) + RecurseElems(v, i + 1, root, depth)
  }

  function RecurseItems(v: PValue, i: nat, root: string, depth: int): seq<Triple>
    requires v.PDict? && i <= |v.items|
    decreases v, 0, |v.items| - i
  {
    if i == |v.items| then []
    else
      var (k, x) := v.items[i];
      [Triple(root, k, x)] + Nested(x, root + "/" + k, depth - 1) + RecurseItems(v, i + 1, root, depth)
  }

  /** The recursion into a dictionary item's value: a dictionary, or the dictionaries in a list. */
  function Nested(x: PValue, root: string, depth: int): seq<Triple>
    decreases x, 2
  {
    match x
      case PDict(_) => RecurseKey(x, root, depth)
      case PList(_) => DictsIn(x, 0, root, depth)
      case _ => []
  }

  function DictsIn(x: PValue, j: nat, root: string, depth: int): seq<Triple>
    requires x.PList? && j <= |x.elems|
    decreases x, 1, |x.elems| - j
  {
    if j == |x.elems| then []
    else (if x.elems[j].PDict? then RecurseKey(x.elems[j], root, depth) else []) + DictsIn(x, j + 1, root, depth)
  }

  /** Nothing is yielded below depth 1, wherever the recursion is. */
  lemma {:induction false} NestedBelowOne(x: PValue, root: string, depth: int)
    requires depth < 1
    ensures Nested(x, root, depth) == []
  {
    if x.PList? {
      DictsInBelowOne(x, 0, root, depth);
    }
  }

  lemma {:induction false} DictsInBelowOne(x: PValue, j: nat, root: string, depth: int)
    requires depth < 1 && x.PList? && j <= |x.elems|
    ensures DictsIn(x, j, root, depth) == []
    decreases |x.elems| - j
  {
    if j < |x.elems| {
      DictsInBelowOne(x, j + 1, root, depth);
    }
  }

  /** At depth 1 a dictionary yields exactly its own items, in order, under root. */
  lemma {:induction false} DepthOneListsItems(v: PValue, root: string)
    requires v.PDict?
    ensures RecurseKey(v, root, 1) == seq(|v.items|, k requires 0 <= k < |v.items| => Triple(root, v.items[k].0, v.items[k].1))
  {
    ItemsAtDepthOne(v, 0, root);
  }

  lemma {:induction false} ItemsAtDepthOne(v: PValue, i: nat, root: string)
    requires v.PDict? && i <= |v.items|
    ensures RecurseItems(v, i, root, 1) ==
            seq(|v.items| - i, k requires 0 <= k < |v.items| - i => Triple(root, v.items[i + k].0, v.items[i + k].1))
    decreases |v.items| - i
  {
    if i < |v.items| {
      NestedBelowOne(v.items[i].1, root + "/" + v.items[i].0, 0);
      ItemsAtDepthOne(v, i + 1, root);
    }
  }

  /** Every yielded root extends the starting root. */
  lemma {:induction false} RootsExtend(v: PValue, root: string, depth: int)
    ensures forall t :: t in RecurseKey(v, root, depth) ==> StartsWith(t.root, root)
    decreases v, 1
  {
    if depth >= 1 {
      match v
        case PList(_) => ElemsRootsExtend(v, 0, root, depth);
        case PTuple(_) => ElemsRootsExtend(v, 0, root, depth);
        case PDict(_) => ItemsRootsExtend(v, 0, root, depth);
        case _ =>
    }
  }

  lemma {:induction false} ElemsRootsExtend(v: PValue, i: nat, root: string, depth: int)
    requires (v.PList? || v.PTuple?) && i <= |v.elems|
    ensures forall t :: t in RecurseElems(v, i, root, depth) ==> StartsWith(t.root, root)
    decreases v, 0, |v.elems| - i
  {
    if i < |v.elems| {
      RootsExtend(v.elems[i], root, depth);
      ElemsRootsExtend(v, i + 1, root, depth);
    }
  }

  lemma {:induction false} ItemsRootsExtend(v: PValue, i: nat, root: string, depth: int)
    requires v.PDict? && i <= |v.items|
    ensures forall t :: t in RecurseItems(v, i, root, depth) ==> StartsWith(t.root, root)
    decreases v, 0, |v.items| - i
  {
    if i < |v.items| {
      var (k, x) := v.items[i];
      NestedRootsExtend(x, root + "/" + k, depth - 1);
      forall t | t in Nested(x, root + "/" + k, depth - 1) ensures StartsWith(t.root, root) {
        assert (root + "/" + k)[..|root|] == root;
        assert t.root[..|root|] == (t.root[..|root + "/" + k|])[..|root|];
      }
      ItemsRootsExtend(v, i + 1, root, depth);
    }
  }

  lemma {:induction false} NestedRootsExtend(x: PValue, root: string, depth: int)
    ensures forall t :: t in Nested(x, root, depth) ==> StartsWith(t.root, root)
    decreases x, 2
  {
    match x
      case PDict(_) => RootsExtend(x, root, depth);
      case PList(_) => DictsInRootsExtend(x, 0, root, depth);
      case _ =>
  }

  lemma {:induction false} DictsInRootsExtend(x: PValue, j: nat, root: string, depth: int)
    requires x.PList? && j <= |x.elems|
    ensures forall t :: t in DictsIn(x, j, root, depth) ==> StartsWith(t.root, root)
    decreases x, 1, |x.elems| - j
  {
    if j < |x.elems| {
      if x.elems[j].PDict? {
        RootsExtend(x.elems[j], root, depth);
      }
      DictsInRootsExtend(x, j + 1, root, depth);
    }
  }

  /** The device cache dictionary of the interface tests (floating-point values left out). */
  function TestDict(): PValue
  {
    PDict([("DeviceCache", PDict([
      ("44-00-00-00-00-04", PDict([("Name", PStr("Apple Magic Trackpad 2")), ("LMPSubversion", PInt(796)), ("Services", PStr(""))])),
      ("44-00-00-00-00-02", PDict([("Name", PStr("test-macpro")), ("ClockOffset", PInt(28180)),
                                   ("PageScanPeriod", PInt(2)), ("PageScanRepetitionMode", PInt(1))]))]))])
  }

  /** Depth 1 yields only the root key; depth 2 adds the two devices. */
  lemma TestDictRecursion()
    ensures |RecurseKey(TestDict(), "", 1)| == 1
    ensures |RecurseKey(TestDict(), "", 2)| == 3
    ensures TripleKeys(RecurseKey(TestDict(), "", 2)) == {"DeviceCache", "44-00-00-00-00-04", "44-00-00-00-00-02"}
  {
    var top := TestDict();
    var cache := top.items[0].1;
    DepthOneListsItems(top, "");
    DepthOneListsItems(cache, "/DeviceCache");
    var ts := RecurseKey(top, "", 2);
    assert "" + "/" + "DeviceCache" == "/DeviceCache";
    assert RecurseItems(top, 1, "", 2) == [];
    assert Nested(cache, "/DeviceCache", 1) == RecurseKey(cache, "/DeviceCache", 1);
    assert ts == [Triple("", "DeviceCache", cache)] + RecurseKey(cache, "/DeviceCache", 1);
    assert ts[0].key == "DeviceCache" && ts[1].key == "44-00-00-00-00-04" && ts[2].key == "44-00-00-00-00-02";
  }

  // ---------------------------------------------------------------------
  // GetKeys and GetKeysDefaultEmpty

  function TripleKeys(ts: seq<Triple>): set<string>
  {
    set i | 0 <= i < |ts| :: ts[i].key
  }

  /**
   * The loop over RecurseKey's tuples shared by GetKeys and
   * GetKeysDefaultEmpty beyond depth 1: a requested key takes the tuple's
   * value, and the loop returns as soon as every requested key is matched.
   */
  function ScanMatch(ts: seq<Triple>, keys: set<string>, m: map<string, PValue>): map<string, PValue>
  {
    if ts == [] then m
    else if ts[0].key in keys then
      var m1 := m[ts[0].key := ts[0].value];
      if m1.Keys == keys then m1 else ScanMatch(ts[1..], keys, m1)
    else ScanMatch(ts[1..], keys, m)
  }

  /**
   * The matched keys are exactly the requested keys that some tuple has
   * (together with those matched before), and each matched value is the
   * value of a tuple with that key.
   */
  lemma {:induction false} ScanMatchSound(ts: seq<Triple>, keys: set<string>, m: map<string, PValue>)
    requires m.Keys <= keys
    ensures var r := ScanMatch(ts, keys, m);
      && r.Keys == m.Keys + (keys * TripleKeys(ts))
      && forall k :: k in r ==> (k in m && r[k] == m[k]) || exists t :: t in ts && t.key == k && t.value == r[k]
  {
    if ts != [] {
      var rest := ts[1..];
      assert TripleKeys(ts) == {ts[0].key} + TripleKeys(rest) by {
        forall x | x in TripleKeys(ts) ensures x in {ts[0].key} + TripleKeys(rest) {
          var i :| 0 <= i < |ts| && ts[i].key == x;
          if i > 0 { assert rest[i - 1].key == x; }
        }
        forall x | x in TripleKeys(rest) ensures x in TripleKeys(ts) {
          var i :| 0 <= i < |rest| && rest[i].key == x;
          assert ts[i + 1].key == x;
        }
      }
      var m1 := if ts[0].key in keys then m[ts[0].key := ts[0].value] else m;
      if !(ts[0].key in keys && m1.Keys == keys) {
        ScanMatchSound(rest, keys, m1);
        var r := ScanMatch(rest, keys, m1);
        forall k | k in r
          ensures (k in m && r[k] == m[k]) || exists t :: t in ts && t.key == k && t.value == r[k]
        {
          if k in m1 && r[k] == m1[k] {
            if ts[0].key in keys && k == ts[0].key { assert ts[0] in ts; }
          } else {
            var t :| t in rest && t.key == k && t.value == r[k];
            assert t in ts;
          }
        }
      } else {
        assert ts[0] in ts;
      }
    }
  }

  /** The requested keys with their values (all present). */
  function Picked(items: seq<(string, PValue)>, keys: set<string>): map<string, PValue>
    requires keys <= KeysOf(items)
  {
    map k | k in keys :: Get(items, k).value
  }

  /** The requested keys that are present with a value other than None. */
  function PickedPresent(items: seq<(string, PValue)>, keys: set<string>): map<string, PValue>
  {
    map k | k in keys && k in KeysOf(items) && Get(items, k).value != PNone :: Get(items, k).value
  }

  /** Specification of GetKeys. */
  function GetKeysOf(top: PValue, keys: set<string>, depth: int): Result<map<string, PValue>>
  {
    if !top.PDict? then Ok(map[])
    else if depth == 1 then
      if keys <= KeysOf(top.items) then Ok(Picked(top.items, keys))
      else Err(KeyError)
    else Ok(ScanMatch(RecurseKey(top, "", depth), keys, map[]))
  }

  /** Specification of GetKeysDefaultEmpty. */
  function DefaultEmptyOf(top: PValue, keys: set<string>, depth: int): Result<map<string, PValue>>
  {
    if depth == 1 then
      if keys == {} then Ok(map[])
      else if !top.PDict? then Err(AttributeError)
      else Ok(PickedPresent(top.items, keys))
    else Ok(ScanMatch(RecurseKey(top, "", depth), keys, map[]))
  }

  /**
   * GetKeys beyond depth 1 finds exactly the requested keys RecurseKey
   * reaches, each with a value it yielded for that key.
   */
  lemma DeepGetKeysFindsReachable(top: PValue, keys: set<string>, depth: int)
    requires top.PDict? && depth != 1
    ensures GetKeysOf(top, keys, depth).Ok?
    ensures var m := GetKeysOf(top, keys, depth).value;
      var ts := RecurseKey(top, "", depth);
      && m.Keys == keys * TripleKeys(ts)
      && forall k :: k in m ==> exists t :: t in ts && t.key == k && t.value == m[k]
  {
    var ts := RecurseKey(top, "", depth);
    ScanMatchSound(ts, keys, map[]);
  }

  method GetKeys(top: PValue, keys: set<string>, depth: int) returns (r: Result<map<string, PValue>>)
    ensures r == GetKeysOf(top, keys, depth)
  {
    var found: map<string, PValue> := map[];
    if !top.PDict? {
      return Ok(found);
    }
    if depth == 1 {
      var remaining := keys;
      while remaining != {}
        invariant remaining <= keys
        invariant keys - remaining <= KeysOf(top.items)
        invariant found.Keys == keys - remaining
        invariant forall k :: k in found ==> Get(top.items, k) == Some(found[k])
        decreases remaining
      {
        var key :| key in remaining;
        var value := Get(top.items, key);
        if value.None? {
          return Err(KeyError);
        }
        found := found[key := value.value];
        remaining := remaining - {key};
      }
      PickedAll(top.items, keys, found);
      return Ok(found);
    }
    var deep := MatchLoop(RecurseKey(top, "", depth), keys);
    r := Ok(deep);
  }

  lemma PickedAll(items: seq<(string, PValue)>, keys: set<string>, found: map<string, PValue>)
    requires found.Keys == keys && forall k :: k in found ==> Get(items, k) == Some(found[k])
    ensures keys <= KeysOf(items) && found == Picked(items, keys)
  {
  }

  lemma PickedPresentIs(items: seq<(string, PValue)>, keys: set<string>, found: map<string, PValue>)
    requires forall k :: k in found <==> k in keys && Get(items, k).Some? && Get(items, k).value != PNone
    requires forall k :: k in found ==> Get(items, k) == Some(found[k])
    ensures found == PickedPresent(items, keys)
  {
  }

  /** The loop over the tuples, returning as soon as every key is matched. */
  method MatchLoop(ts: seq<Triple>, keys: set<string>) returns (found: map<string, PValue>)
    ensures found == ScanMatch(ts, keys, map[])
  {
    found := map[];
    var i := 0;
    while i < |ts|
      invariant 0 <= i <= |ts|
      invariant ScanMatch(ts, keys, map[]) == ScanMatch(ts[i..], keys, found)
    {
      assert ts[i..][1..] == ts[i + 1..];
      if ts[i].key in keys {
        found := found[ts[i].key := ts[i].value];
        if found.Keys == keys {
          return;
        }
      }
      i := i + 1;
    }
  }

  method GetKeysDefaultEmpty(top: PValue, keys: set<string>, depth: int) returns (r: Result<map<string, PValue>>)
    ensures r == DefaultEmptyOf(top, keys, depth)
  {
    if depth == 1 {
      var found: map<string, PValue> := map[];
      var remaining := keys;
      while remaining != {}
        invariant remaining <= keys
        invariant remaining != keys ==> top.PDict?
        invariant top.PDict? ==> forall k :: k in found <==> k in keys - remaining && Get(top.items, k).Some? && Get(top.items, k).value != PNone
        invariant top.PDict? ==> forall k :: k in found ==> Get(top.items, k) == Some(found[k])
        invariant !top.PDict? ==> found == map[]
        decreases remaining
      {
        var key :| key in remaining;
        if !top.PDict? {
          return Err(AttributeError);
        }
        var value := Get(top.items, key);
        if value.Some? && value.value != PNone {
          found := found[key := value.value];
        }
        remaining := remaining - {key};
      }
      if keys == {} {
        return Ok(map[]);
      }
      PickedPresentIs(top.items, keys, found);
      return Ok(found);
    }
    var deep := MatchLoop(RecurseKey(top, "", depth), keys);
    r := Ok(deep);
  }

  /** At depth 1, GetKeysDefaultEmpty keeps exactly the requested keys that are present with a value other than None. */
  lemma DefaultEmptyKeepsPresent(top: PValue, keys: set<string>)
    requires top.PDict?
    ensures DefaultEmptyOf(top, keys, 1).Ok?
    ensures var m := DefaultEmptyOf(top, keys, 1).value;
      forall k :: k in m <==> k in keys && Get(top.items, k).Some? && Get(top.items, k).value != PNone
  {
  }

  // ---------------------------------------------------------------------
  // Plugin selection

  /** The PLIST_PATH and PLIST_KEYS of a plugin. */
  datatype Plugin = Plugin(path: string, keys: set<string>)

  /** The keys of the dictionaries directly inside a list or tuple top level. */
  function ElementKeys(elems: seq<PValue>): set<string>
  {
    set i, k | 0 <= i < |elems| && elems[i].PDict? && k in KeysOf(elems[i].items) :: k
  }

  /** Does the top-level structure carry every key the plugin requires? */
  predicate KeysMatch(p: Plugin, top: PValue)
  {
    match top
      case PDict(items) => p.keys <= KeysOf(items)
      case PList(elems) => p.keys <= ElementKeys(elems)
      case PTuple(elems) => p.keys <= ElementKeys(elems)
      case _ => false
  }

  /**
   * Specification of PlistPlugin.Process up to the call of GetEntries: the
   * match handed to GetEntries, or the exception raised.
   */
  function ProcessOf(p: Plugin, plistName: Option<string>, top: PValue): Result<map<string, PValue>>
  {
    if plistName.None? || top.PNone? then Err(ValueError)
    else if Lower(plistName.value) != Lower(p.path) then Err(WrongPlistPlugin)
    else if !KeysMatch(p, top) then Err(WrongPlistPlugin)
    else GetKeysOf(top, p.keys, 1)
  }

  /**
   * A plugin accepts a plist exactly when the name matches up to case and
   * the required keys are present; a dictionary top level then hands
   * exactly the required keys to GetEntries, a list hands nothing.
   */
  lemma ProcessAccepts(p: Plugin, plistName: Option<string>, top: PValue)
    ensures ProcessOf(p, plistName, top).Ok? <==>
      plistName.Some? && !top.PNone? && Lower(plistName.value) == Lower(p.path) && KeysMatch(p, top)
    ensures ProcessOf(p, plistName, top).Ok? && top.PDict? ==> ProcessOf(p, plistName, top).value.Keys == p.keys
    ensures ProcessOf(p, plistName, top).Ok? && !top.PDict? ==> ProcessOf(p, plistName, top).value == map[]
  {
  }

  method Process(p: Plugin, plistName: Option<string>, top: PValue) returns (r: Result<map<string, PValue>>)
    ensures r == ProcessOf(p, plistName, top)
  {
    if plistName.None? || top.PNone? {
      return Err(ValueError);
    }
    if Lower(plistName.value) != Lower(p.path) {
      return Err(WrongPlistPlugin);
    }
    if top.PDict? {
      if !(p.keys <= KeysOf(top.items)) {
        return Err(WrongPlistPlugin);
      }
    } else {
      if !(top.PList? || top.PTuple?) {
        return Err(WrongPlistPlugin);
      }
      var keys := ListKeys(top.elems);
      if !(p.keys <= keys) {
        return Err(WrongPlistPlugin);
      }
    }
    r := GetKeys(top, p.keys, 1);
  }

  /** The loop collecting the keys of the dictionary elements of a list top level. */
  method ListKeys(elems: seq<PValue>) returns (keys: set<string>)
    ensures keys == ElementKeys(elems)
  {
    keys := {};
    var i := 0;
    while i < |elems|
      invariant 0 <= i <= |elems|
      invariant keys == ElementKeys(elems[..i])
    {
      if elems[i].PDict? {
        keys := keys + KeysOf(elems[i].items);
      }
      ElementKeysSnoc(elems, i);
      i := i + 1;
    }
    assert elems[..i] == elems;
  }

  lemma ElementKeysSnoc(elems: seq<PValue>, i: nat)
    requires i < |elems|
    ensures ElementKeys(elems[..i + 1]) ==
      ElementKeys(elems[..i]) + (if elems[i].PDict? then KeysOf(elems[i].items) else {})
  {
    var a := elems[..i + 1];
    var b := elems[..i];
    forall k | k in ElementKeys(a)
      ensures k in ElementKeys(b) + (if elems[i].PDict? then KeysOf(elems[i].items) else {})
    {
      var j :| 0 <= j < |a| && a[j].PDict? && k in KeysOf(a[j].items);
      if j < i { assert b[j] == a[j]; }
    }
    forall k | k in ElementKeys(b) ensures k in ElementKeys(a) {
      var j :| 0 <= j < |b| && b[j].PDict? && k in KeysOf(b[j].items);
      assert a[j] == b[j];
    }
    if elems[i].PDict? {
      forall k | k in KeysOf(elems[i].items) ensures k in ElementKeys(a) {
        assert a[i] == elems[i];
      }
    }
  }

  // ---------------------------------------------------------------------
  // FakeFile

  const SEEK_SET: int := 0
  const SEEK_CUR: int := 1
  const SEEK_END: int := 2

  /** The offset after seek(offset, whence): no clamping; an unknown whence leaves it. */
  function SeekTo(current: int, size: nat, offset: int, whence: int): int
  {
    if whence == SEEK_SET then offset
    else if whence == SEEK_CUR then current + offset
    else if whence == SEEK_END then size + offset
    else current
  }

  /** read(size) from the given offset: the bytes returned and the new offset. */
  function FakeReadAt(data: seq<byte>, offset: int, size: int): (seq<byte>, int)
  {
    if offset > |data| then ([], offset)
    else if size == 0 then (PySlice(data, offset, |data|), |data|)
    else if size >= |PySlice(data, offset, |data|)| then (PySlice(data, offset, |data|), |data|)
    else (PySlice(data, offset, offset + size), offset + size)
  }

  /**
   * Within the data, read(size) returns exactly the next size bytes and
   * advances by size, or the remainder when fewer are left (or size is 0)
   * and moves to the end; past the end it returns nothing.
   */
  lemma ReadWithin(data: seq<byte>, offset: int, size: int)
    ensures offset > |data| ==> FakeReadAt(data, offset, size) == ([], offset)
    ensures 0 <= offset <= |data| && 0 < size < |data| - offset ==>
      FakeReadAt(data, offset, size) == (data[offset..offset + size], offset + size)
    ensures 0 <= offset <= |data| && (size == 0 || size >= |data| - offset) ==>
      FakeReadAt(data, offset, size) == (data[offset..], |data|)
  {
  }

  /** Two consecutive reads inside the data return the bytes of one read of both sizes. */
  lemma ReadsConcatenate(data: seq<byte>, offset: int, a: int, b: int)
    requires 0 <= offset && 0 < a && 0 < b && offset + a + b < |data|
    ensures var (r1, o1) := FakeReadAt(data, offset, a);
      var (r2, o2) := FakeReadAt(data, o1, b);
      r1 + r2 == FakeReadAt(data, offset, a + b).0 && o2 == FakeReadAt(data, offset, a + b).1
  {
    ReadWithin(data, offset, a);
    ReadWithin(data, offset + a, b);
    ReadWithin(data, offset, a + b);
    assert data[offset..offset + a] + data[offset + a..offset + a + b] == data[offset..offset + a + b];
  }

  class FakeFile {
    const data: seq<byte>
    var offset: int

    constructor (data: seq<byte>)
      ensures this.data == data && offset == 0
    {
      this.data := data;
      offset := 0;
    }

    method Tell() returns (r: int)
      ensures r == offset
    {
      return offset;
    }

    method Seek(offset: int, whence: int)
      modifies this
      ensures this.offset == SeekTo(old(this.offset), |data|, offset, whence)
    {
      if whence == SEEK_SET {
        this.offset := offset;
      } else if whence == SEEK_CUR {
        this.offset := this.offset + offset;
      } else if whence == SEEK_END {
        this.offset := |data| + offset;
      }
    }

    method Read(size: int) returns (r: seq<byte>)
      modifies this
      ensures (r, offset) == FakeReadAt(data, old(offset), size)
    {
      if offset > |data| {
        return [];
      }
      if size == 0 {
        r := PySlice(data, offset, |data|);
        offset := |data|;
        return;
      }
      if size >= |PySlice(data, offset, |data|)| {
        r := PySlice(data, offset, |data|);
        offset := |data|;
        return;
      }
      r := PySlice(data, offset, offset + size);
      offset := offset + size;
    }
  }
}
