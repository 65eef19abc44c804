/**
 * The Windows Prefetch execution formatter: before the message is built,
 * the event gets a volumes_string with one fragment per volume, numbered
 * from 1, giving the volume's serial number in upper-case hexadecimal
 * and its device path, the fragments joined by ', '.
 */
module WinPrefetchFormatter {
  import opened Common
  import opened Formatters

  const DATA_TYPE: string := "windows:prefetch:execution"

  /** '{0:08X}': upper-case hexadecimal padded with zeros to eight characters, a minus sign counting as one of them. */
  function Hex8(n: int): (r: string)
    ensures |r| >= 8
  {
    if n >= 0 then PadLeft(NatToHex(n, true), 8, '0') else "-" + PadLeft(NatToHex(-n, true), 7, '0')
  }

  /** One volume's fragment. */
  function VolumeString(number: nat, serial: int, path: string): string
  {
    "volume: " + NatToStr(number) + " [serial number: 0x" + Hex8(serial) + ", device path: " + path + "]"
  }

  /** range(0, n) takes an integer; a bool counts as 0 or 1. */
  function IntOf(v: Value): Option<int>
  {
    match v
    case Int(i) => Some(i)
    case Bool(b) => Some(if b then 1 else 0)
    case _ => None
  }

  /** None, a number or a bool: values that cannot be indexed. */
  predicate Unindexable(v: Value)
  {
    v.Null? || v.Int? || v.Bool?
  }

  /**
   * value[i] on an attribute value: a list or a text gives its i-th item
   * (a text a one-character text), IndexError past its end; None, a
   * number or a bool cannot be indexed.
   */
  function Index(v: Value, i: nat): (r: Result<Value>)
    ensures r.Ok? ==> r.value.Int? || r.value.Str?
    ensures (v.Ints? || v.Strs? || v.Str?) ==> (r.Err? <==> r == Err(IndexError))
    ensures Unindexable(v) ==> r == Err(TypeError)
  {
    match v
    case Ints(xs) => if i < |xs| then Ok(Int(xs[i])) else Err(IndexError)
    case Strs(xs) => if i < |xs| then Ok(Str(xs[i])) else Err(IndexError)
    case Str(t) => if i < |t| then Ok(Str([t[i]])) else Err(IndexError)
    case _ => Err(TypeError)
  }

  /**
   * The fragment of the volume at index i, or the exception raised on the
   * way: the arguments are looked up first (serial number, then device
   * path), then formatted, where '{1:08X}' takes only a number and
   * '{2:s}' only a text (ValueError otherwise).
   */
  function Fragment(a: Attributes, i: nat): Result<string>
  {
    if "volume_serial_numbers" !in a then Err(AttributeError)
    else
      match Index(a["volume_serial_numbers"], i)
      case Err(x) => Err(x)
      case Ok(serial) =>
        if "volume_device_paths" !in a then Err(AttributeError)
        else
          match Index(a["volume_device_paths"], i)
          case Err(x) => Err(x)
          case Ok(path) =>
            if !serial.Int? || !path.Str? then Err(ValueError)
            else Ok(VolumeString(i + 1, serial.i, path.s))
  }

  /** What each iteration of the volume loop gives, by volume index. */
  type Fragments = nat -> Result<string>

  /** The fragments of an event's volumes. */
  function FragmentsOf(a: Attributes): Fragments
  {
    (i: nat) => Fragment(a, i)
  }

  /** The fragments of the first k iterations, or the first exception among them. */
  function Iterations(frag: Fragments, k: nat): Result<seq<string>>
  {
    if k == 0 then Ok([])
    else
      match Iterations(frag, k - 1)
      case Err(x) => Err(x)
      case Ok(fs) =>
        match frag(k - 1)
        case Err(x) => Err(x)
        case Ok(f) => Ok(fs + [f])
  }

  /** The exception GetMessages raises (None: it goes on to the message) and the attributes it leaves. */
  function Formatted(a: Attributes): (Option<Exc>, Attributes)
  {
    if "number_of_volumes" !in a then (Some(AttributeError), a)
    else
      match IntOf(a["number_of_volumes"])
      case None => (Some(TypeError), a)
      case Some(n) =>
        match Iterations(FragmentsOf(a), if n > 0 then n else 0)
        case Err(x) => (Some(x), a)
        case Ok(fs) => (None, if fs != [] then a["volumes_string" := Str(Join(fs, ", "))] else a)
  }

  /** The volume loop: one fragment per index below bound, stopping at the first exception. */
  method VolumesStrings(a: Attributes, bound: nat) returns (r: Result<seq<string>>)
    ensures r == Iterations(FragmentsOf(a), bound)
  {
    var volumesStrings: seq<string> := [];
    var volumeIndex: nat := 0;
    while volumeIndex < bound
      invariant volumeIndex <= bound
      invariant Iterations(FragmentsOf(a), volumeIndex) == Ok(volumesStrings)
    {
      var fragment := Fragment(a, volumeIndex);
      IterationsStep(FragmentsOf(a), volumeIndex);
      if fragment.Err? {
        ErrorPersists(FragmentsOf(a), volumeIndex + 1, bound);
        return Err(fragment.exc);
      }
      volumesStrings := volumesStrings + [fragment.value];
      volumeIndex := volumeIndex + 1;
    }
    return Ok(volumesStrings);
  }

  /**
   * WinPrefetchExecutionFormatter.GetMessages up to the generic message
   * building: WrongFormatter for another data type; the volume loop; the
   * attribute set only when there was a volume.
   */
  method GetMessages(e: EventObject) returns (r: Option<Exc>)
    modifies e
    ensures e.dataType != DATA_TYPE ==> r == Some(WrongFormatter) && e.attributes == old(e.attributes)
    ensures e.dataType == DATA_TYPE ==> (r, e.attributes) == Formatted(old(e.attributes))
  {
    if e.dataType != DATA_TYPE {
      return Some(WrongFormatter);
    }
    if !e.HasAttribute("number_of_volumes") {
      return Some(AttributeError);
    }
    var count := IntOf(e.attributes["number_of_volumes"]);
    if count.None? {
      return Some(TypeError);
    }
    var volumesStrings := VolumesStrings(e.attributes, if count.value > 0 then count.value else 0);
    if volumesStrings.Err? {
      return Some(volumesStrings.exc);
    }
    if volumesStrings.value != [] {
      e.SetAttribute("volumes_string", Str(Join(volumesStrings.value, ", ")));
    }
    return None;
  }

  // ---------------------------------------------------------------------
  // Properties

  /** One iteration more appends its fragment, or ends in its exception. */
  lemma IterationsStep(frag: Fragments, k: nat)
    requires Iterations(frag, k).Ok?
    ensures Iterations(frag, k + 1) ==
      if frag(k).Err? then Err(frag(k).exc) else Ok(Iterations(frag, k).value + [frag(k).value])
  {
  }

  /** The loop stops at its first exception: later bounds end in the same one. */
  lemma {:induction false} ErrorPersists(frag: Fragments, k: nat, m: nat)
    requires k <= m && Iterations(frag, k).Err?
    ensures Iterations(frag, m) == Iterations(frag, k)
    decreases m - k
  {
    if k < m {
      ErrorPersists(frag, k + 1, m);
    }
  }

  /** With enough serial numbers and device paths the loop raises nothing and gives one fragment per volume. */
  lemma AllFragments(a: Attributes, k: nat, serials: seq<int>, paths: seq<string>)
    requires "volume_serial_numbers" in a && a["volume_serial_numbers"] == Ints(serials)
    requires "volume_device_paths" in a && a["volume_device_paths"] == Strs(paths)
    requires k <= |serials| && k <= |paths|
    ensures Iterations(FragmentsOf(a), k).Ok? && |Iterations(FragmentsOf(a), k).value| == k
  {
    forall i | 0 <= i < k ensures FragmentsOf(a)(i).Ok? {
      FragmentOk(a, i, serials, paths);
    }
    AllOk(FragmentsOf(a), k);
  }

  /** Iterations whose fragments can all be built give those fragments, in order. */
  lemma {:induction false} AllOk(frag: Fragments, k: nat)
    requires forall i :: 0 <= i < k ==> frag(i).Ok?
    ensures Iterations(frag, k).Ok? && |Iterations(frag, k).value| == k
    ensures forall i :: 0 <= i < k ==> Iterations(frag, k).value[i] == frag(i).value
  {
    if k > 0 {
      AllOk(frag, k - 1);
      IterationsStep(frag, k - 1);
    }
  }

  lemma FragmentOk(a: Attributes, i: nat, serials: seq<int>, paths: seq<string>)
    requires "volume_serial_numbers" in a && a["volume_serial_numbers"] == Ints(serials)
    requires "volume_device_paths" in a && a["volume_device_paths"] == Strs(paths)
    requires i < |serials| && i < |paths|
    ensures Fragment(a, i) == Ok(VolumeString(i + 1, serials[i], paths[i]))
  {
  }

  /** A text of device paths is indexed character by character, each character formatted as a path. */
  lemma TextDevicePaths(a: Attributes, i: nat, serials: seq<int>, paths: string)
    requires "volume_serial_numbers" in a && a["volume_serial_numbers"] == Ints(serials)
    requires "volume_device_paths" in a && a["volume_device_paths"] == Str(paths)
    requires i < |serials| && i < |paths|
    ensures Fragment(a, i) == Ok(VolumeString(i + 1, serials[i], [paths[i]]))
  {
  }

  /**
   * Serial numbers that are texts (or lists of texts) fail only when
   * formatted, after the device path lookup: a missing device path
   * raises AttributeError first, present ones give ValueError.
   */
  lemma SerialTypeDeferred(a: Attributes, i: nat, serials: Value, paths: seq<string>)
    requires "volume_serial_numbers" in a && a["volume_serial_numbers"] == serials
    requires (serials.Str? && i < |serials.s|) || (serials.Strs? && i < |serials.strs|)
    ensures "volume_device_paths" !in a ==> Fragment(a, i) == Err(AttributeError)
    ensures "volume_device_paths" in a && a["volume_device_paths"] == Strs(paths) && i < |paths| ==>
      Fragment(a, i) == Err(ValueError)
  {
  }

  /** None, a number or a bool cannot be indexed: TypeError at its lookup. */
  lemma UnindexableRaises(a: Attributes, i: nat, serials: seq<int>)
    requires "volume_serial_numbers" in a
    ensures Unindexable(a["volume_serial_numbers"]) ==> Fragment(a, i) == Err(TypeError)
    ensures (a["volume_serial_numbers"] == Ints(serials) && i < |serials| && "volume_device_paths" in a &&
      Unindexable(a["volume_device_paths"])) ==> Fragment(a, i) == Err(TypeError)
  {
  }

  /** Fragment i is volume i + 1's: its number, its serial number and its device path. */
  lemma FragmentAt(a: Attributes, k: nat, serials: seq<int>, paths: seq<string>, i: nat)
    requires "volume_serial_numbers" in a && a["volume_serial_numbers"] == Ints(serials)
    requires "volume_device_paths" in a && a["volume_device_paths"] == Strs(paths)
    requires i < k <= |serials| && k <= |paths|
    ensures Iterations(FragmentsOf(a), k).Ok? && |Iterations(FragmentsOf(a), k).value| == k &&
      Iterations(FragmentsOf(a), k).value[i] == VolumeString(i + 1, serials[i], paths[i])
  {
    forall j | 0 <= j < k ensures FragmentsOf(a)(j).Ok? {
      FragmentOk(a, j, serials, paths);
    }
    AllOk(FragmentsOf(a), k);
    FragmentOk(a, i, serials, paths);
  }

  /** Fewer serial numbers than volumes: IndexError, and the event keeps its attributes. */
  lemma {:induction false} TooFewSerials(a: Attributes, k: nat, serials: seq<int>)
    requires "volume_serial_numbers" in a && a["volume_serial_numbers"] == Ints(serials)
    requires k > |serials|
    ensures Iterations(FragmentsOf(a), k).Err?
    ensures (forall i :: 0 <= i < |serials| ==> Fragment(a, i).Ok?) ==> Iterations(FragmentsOf(a), k) == Err(IndexError)
  {
    if k - 1 > |serials| {
      TooFewSerials(a, k - 1, serials);
    } else {
      assert k - 1 == |serials|;
      if Iterations(FragmentsOf(a), k - 1).Ok? {
        assert Fragment(a, k - 1) == Err(IndexError);
      } else {
        NoErrorBefore(FragmentsOf(a), k - 1);
      }
    }
  }

  /** When the first k fragments can all be built, the first k iterations give no exception. */
  lemma {:induction false} NoErrorBefore(frag: Fragments, k: nat)
    ensures (forall i :: 0 <= i < k ==> frag(i).Ok?) ==> Iterations(frag, k).Ok?
  {
    if k > 0 {
      NoErrorBefore(frag, k - 1);
      if Iterations(frag, k - 1).Ok? {
        IterationsStep(frag, k - 1);
      }
    }
  }

  /** volumes_string is set exactly when the event has at least one volume and the loop raised nothing. */
  lemma VolumesStringSet(a: Attributes)
    requires "volumes_string" !in a
    ensures "volumes_string" in Formatted(a).1 <==>
      Formatted(a).0.None? && IntOf(a["number_of_volumes"]).value >= 1
  {
    if "number_of_volumes" in a && IntOf(a["number_of_volumes"]).Some? {
      var n := IntOf(a["number_of_volumes"]).value;
      if n > 0 {
        IterationsLength(FragmentsOf(a), n);
      }
    }
  }

  /** Iterations that raise nothing give one fragment each. */
  lemma {:induction false} IterationsLength(frag: Fragments, k: nat)
    ensures Iterations(frag, k).Ok? ==> |Iterations(frag, k).value| == k
  {
    if k > 0 {
      IterationsLength(frag, k - 1);
      if Iterations(frag, k - 1).Ok? {
        IterationsStep(frag, k - 1);
      }
    }
  }

  /** The serial number of a fragment reads back as that number. */
  lemma Hex8RoundTrip(n: nat)
    ensures PyInt(Hex8(n), 16) == Some(n)
  {
    var h := NatToHex(n, true);
    ZeroPadded(h, 8);
    PyIntDigits(PadLeft(h, 8, '0'), 16);
  }

  /** A four-byte serial number takes exactly eight digits. */
  lemma Hex8Dword(n: nat)
    requires n < 0x1_0000_0000
    ensures |Hex8(n)| == 8
  {
    assert Pow16(2) == 0x100 by {
      assert Pow16(1) == 16;
    }
    assert Pow16(4) == 0x1_0000 by {
      assert Pow16(3) == 0x1000;
    }
    assert Pow16(6) == 0x100_0000 by {
      assert Pow16(5) == 0x10_0000;
    }
    assert Pow16(8) == 0x1_0000_0000 by {
      assert Pow16(7) == 0x1000_0000;
    }
    HexLength(n, 8, true);
  }
}
