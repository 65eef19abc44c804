/**
 * What the output modules share: the storage file's host names and
 * store ranges, the per-store preprocessing map built from them, the
 * event as an output module sees it (its attributes, its path
 * specification's image inode and what its formatter renders), and
 * Python's unicode() of an attribute value.
 */
module OutputStore {
  import opened Common
  import opened Formatters

  /** One storage information object: its store_range when it has one, and the usernames its GetUsernameById knows. */
  datatype StorageInfo = StorageInfo(storeRange: Option<(int, int)>, users: map<string, string>)

  /** An opened storage file: the host names helper.BuildHostDict derives from it and its storage information, in order. */
  datatype Store = Store(hostnames: map<int, string>, infos: seq<StorageInfo>)

  /** What the event's formatter renders: GetMessages' two strings and GetSources' two strings. */
  datatype Rendered = Rendered(message: string, messageShort: string, sourceShort: string, sourceLong: string)

  /** An event as the output modules see it; formatter is None when the manager has no formatter for it. */
  datatype OutEvent = OutEvent(attributes: Attributes, pathspecImageInode: Option<Value>, formatter: Option<Rendered>)

  /** pre_obj.GetUsernameById(id): the name of a known id, '-' otherwise. */
  function UsernameById(info: StorageInfo, id: Value): string
  {
    if id.Str? && id.s in info.users then info.users[id.s] else "-"
  }

  /** The store numbers an info's range covers: up to the upper bound, which counts when inclusive. */
  predicate Covers(info: StorageInfo, n: int, inclusive: bool)
  {
    info.storeRange.Some? && info.storeRange.value.0 <= n &&
    (if inclusive then n <= info.storeRange.value.1 else n < info.storeRange.value.1)
  }

  /** The end of range(): one past the upper bound when it is inclusive. */
  function RangeEnd(info: StorageInfo, inclusive: bool): int
    requires info.storeRange.Some?
  {
    if inclusive then info.storeRange.value.1 + 1 else info.storeRange.value.1
  }

  /** The store numbers lo up to hi (exclusive), each mapped to info, as the inner loop of Start adds them. */
  function Span(lo: int, hi: int, info: StorageInfo): (r: map<int, StorageInfo>)
    ensures forall n :: n in r <==> lo <= n < hi
    ensures forall n :: n in r ==> r[n] == info
    decreases hi - lo
  {
    if hi <= lo then map[] else Span(lo, hi - 1, info)[hi - 1 := info]
  }

  /** The entries one info adds to the map. */
  function RangeMap(info: StorageInfo, inclusive: bool): (r: map<int, StorageInfo>)
    ensures forall n :: n in r <==> Covers(info, n, inclusive)
    ensures forall n :: n in r ==> r[n] == info
  {
    if info.storeRange.None? then map[] else Span(info.storeRange.value.0, RangeEnd(info, inclusive), info)
  }

  /** The _preprocesses map after some infos: a later info overwrites an earlier one's store numbers. */
  function Preprocesses(infos: seq<StorageInfo>, inclusive: bool): map<int, StorageInfo>
  {
    if infos == [] then map[]
    else Preprocesses(infos[..|infos| - 1], inclusive) + RangeMap(infos[|infos| - 1], inclusive)
  }

  /** The loops of Start: every store number of every info's range, in order. */
  method BuildPreprocesses(infos: seq<StorageInfo>, inclusive: bool) returns (preprocesses: map<int, StorageInfo>)
    ensures preprocesses == Preprocesses(infos, inclusive)
  {
    preprocesses := map[];
    var i := 0;
    while i < |infos|
      invariant 0 <= i <= |infos|
      invariant preprocesses == Preprocesses(infos[..i], inclusive)
    {
      var info := infos[i];
      assert infos[..i + 1][..i] == infos[..i];
      if info.storeRange.Some? {
        preprocesses := AddRange(preprocesses, info, inclusive);
      } else {
        assert preprocesses + RangeMap(info, inclusive) == preprocesses;
      }
      i := i + 1;
    }
    assert infos[..i] == infos;
  }

  /** The inner loop of Start: each store number of one info's range mapped to that info. */
  method AddRange(before: map<int, StorageInfo>, info: StorageInfo, inclusive: bool) returns (preprocesses: map<int, StorageInfo>)
    requires info.storeRange.Some?
    ensures preprocesses == before + RangeMap(info, inclusive)
  {
    preprocesses := before;
    var lo := info.storeRange.value.0;
    var storeNumber := lo;
    while storeNumber < RangeEnd(info, inclusive)
      invariant lo <= storeNumber
      invariant storeNumber <= RangeEnd(info, inclusive) || storeNumber == lo
      invariant preprocesses == before + Span(lo, storeNumber, info)
      decreases RangeEnd(info, inclusive) - storeNumber
    {
      UpdateUnion(before, Span(lo, storeNumber, info), storeNumber, info);
      preprocesses := preprocesses[storeNumber := info];
      storeNumber := storeNumber + 1;
    }
    assert Span(lo, storeNumber, info) == RangeMap(info, inclusive);
  }

  /** Adding a key after a union is adding it to the union's right-hand side. */
  lemma UpdateUnion(a: map<int, StorageInfo>, b: map<int, StorageInfo>, k: int, v: StorageInfo)
    ensures (a + b)[k := v] == a + b[k := v]
  {
  }

  /**
   * A store number is in the map exactly when some info covers it, and
   * then it maps to the last info that does.
   */
  lemma PreprocessLookup(infos: seq<StorageInfo>, inclusive: bool, n: int)
    ensures n in Preprocesses(infos, inclusive) <==> exists i :: 0 <= i < |infos| && Covers(infos[i], n, inclusive)
    ensures n in Preprocesses(infos, inclusive) ==>
      exists i :: 0 <= i < |infos| && Covers(infos[i], n, inclusive) && Preprocesses(infos, inclusive)[n] == infos[i] &&
        forall j :: i < j < |infos| ==> !Covers(infos[j], n, inclusive)
  {
    PreprocessDomain(infos, inclusive, n);
    if n in Preprocesses(infos, inclusive) {
      var i := PreprocessLast(infos, inclusive, n);
    }
  }

  /** The map's one step: the last info's range on top of the earlier infos' map. */
  lemma PreprocessesStep(infos: seq<StorageInfo>, inclusive: bool, n: int)
    requires infos != []
    ensures var whole := Preprocesses(infos, inclusive);
      var before := Preprocesses(infos[..|infos| - 1], inclusive);
      && (n in whole <==> n in before || Covers(infos[|infos| - 1], n, inclusive))
      && (Covers(infos[|infos| - 1], n, inclusive) ==> whole[n] == infos[|infos| - 1])
      && (!Covers(infos[|infos| - 1], n, inclusive) && n in before ==> whole[n] == before[n])
  {
  }

  lemma {:induction false} PreprocessDomain(infos: seq<StorageInfo>, inclusive: bool, n: int)
    ensures n in Preprocesses(infos, inclusive) <==> exists i :: 0 <= i < |infos| && Covers(infos[i], n, inclusive)
  {
    if infos != [] {
      var prior := infos[..|infos| - 1];
      PreprocessesStep(infos, inclusive, n);
      PreprocessDomain(prior, inclusive, n);
      assert forall i :: 0 <= i < |prior| ==> prior[i] == infos[i];
      if exists i :: 0 <= i < |infos| && Covers(infos[i], n, inclusive) {
        var i :| 0 <= i < |infos| && Covers(infos[i], n, inclusive);
        assert i == |infos| - 1 || Covers(prior[i], n, inclusive);
      }
    }
  }

  /** The last info covering a store number in the map, which is the one it maps to. */
  lemma {:induction false} PreprocessLast(infos: seq<StorageInfo>, inclusive: bool, n: int) returns (i: nat)
    requires n in Preprocesses(infos, inclusive)
    ensures i < |infos| && Covers(infos[i], n, inclusive) && Preprocesses(infos, inclusive)[n] == infos[i]
    ensures forall j :: i < j < |infos| ==> !Covers(infos[j], n, inclusive)
  {
    var last := |infos| - 1;
    PreprocessesStep(infos, inclusive, n);
    if Covers(infos[last], n, inclusive) {
      i := last;
    } else {
      var prior := infos[..last];
      i := PreprocessLast(prior, inclusive, n);
      assert forall j :: 0 <= j < |prior| ==> prior[j] == infos[j];
    }
  }

  /** The upper bound of a range is a store of its own only when the range is inclusive; the lower bound always is. */
  lemma UpperBound(info: StorageInfo, inclusive: bool)
    requires info.storeRange.Some? && info.storeRange.value.0 < info.storeRange.value.1
    ensures info.storeRange.value.1 in Preprocesses([info], inclusive) <==> inclusive
    ensures Preprocesses([info], inclusive)[info.storeRange.value.0] == info
  {
    PreprocessLookup([info], inclusive, info.storeRange.value.1);
    PreprocessLookup([info], inclusive, info.storeRange.value.0);
  }

  /** event_object.store_number as a dictionary key: missing raises AttributeError, a list is unhashable, and anything but a number matches no store. */
  function StoreKey(a: Attributes): Result<Option<int>>
  {
    if "store_number" !in a then Err(AttributeError)
    else match a["store_number"]
      case Int(i) => Ok(Some(i))
      case Bool(b) => Ok(Some(if b then 1 else 0))
      case Ints(_) => Err(TypeError)
      case Strs(_) => Err(TypeError)
      case _ => Ok(None)
  }

  /** dict.get(key, default) on a store-number map. */
  function Lookup<V>(m: map<int, V>, key: Option<int>): Option<V>
  {
    if key.Some? && key.value in m then Some(m[key.value]) else None
  }

  /** unicode(x) of an attribute value; a list renders as Python shows it. */
  function Text(v: Value): string
  {
    match v
    case Null => "None"
    case Str(s) => s
    case Int(i) => IntToStr(i)
    case Bool(b) => if b then "True" else "False"
    case Ints(ints) => "[" + Join(seq(|ints|, k requires 0 <= k < |ints| => IntToStr(ints[k])), ", ") + "]"
    case Strs(strs) => "[" + Join(seq(|strs|, k requires 0 <= k < |strs| => "u'" + strs[k] + "'"), ", ") + "]"
  }
}
