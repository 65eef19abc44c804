/**
 * The Windows Shortcut (LNK) link formatter: before the message is built,
 * the event gets a description when it has none and a linked_path taken
 * from the local path, else the network path, else the working directory
 * and relative path joined by a backslash, else 'Unknown'.
 */
module WinLnkFormatter {
  import opened Common
  import opened Formatters

  const DATA_TYPE: string := "windows:lnk:link"
  const EMPTY_DESCRIPTION: string := "Empty description"
  const UNKNOWN: string := "Unknown"

  /** The strings of some values when all of them are strings. */
  function Strings(parts: seq<Value>): (r: Option<seq<string>>)
    ensures r.Some? <==> forall i :: 0 <= i < |parts| ==> parts[i].Str?
    ensures r.Some? ==> |r.value| == |parts| && forall i :: 0 <= i < |parts| ==> r.value[i] == parts[i].s
  {
    if parts == [] then Some([])
    else if !parts[0].Str? then None
    else
      match Strings(parts[1..])
      case None => None
      case Some(rest) => Some([parts[0].s] + rest)
  }

  /** u'\\'.join(paths): a TypeError unless every part is a string. */
  function JoinPaths(parts: seq<Value>): Result<Value>
  {
    match Strings(parts)
    case None => Err(TypeError)
    case Some(ss) => Ok(Str(Join(ss, "\\")))
  }

  /** _GetLinkedPath. */
  function LinkedPath(a: Attributes): Result<Value>
  {
    if "local_path" in a then Ok(a["local_path"])
    else if "network_path" in a then Ok(a["network_path"])
    else if "relative_path" in a then
      var directory := if "working_directory" in a then [a["working_directory"]] else [];
      JoinPaths(directory + [a["relative_path"]])
    else Ok(Str(UNKNOWN))
  }

  /** The attributes once the description is ensured. */
  function Described(a: Attributes): Attributes
  {
    if "description" in a then a else a["description" := Str(EMPTY_DESCRIPTION)]
  }

  /** The exception GetMessages raises (None: it goes on to the message) and the attributes it leaves. */
  function Formatted(a: Attributes): (Option<Exc>, Attributes)
  {
    match LinkedPath(Described(a))
    case Err(x) => (Some(x), Described(a))
    case Ok(p) => (None, Described(a)["linked_path" := p])
  }

  /**
   * WinLnkLinkFormatter.GetMessages up to the generic message building:
   * WrongFormatter for another data type, leaving the event alone.
   */
  method GetMessages(e: EventObject) returns (r: Option<Exc>)
    modifies e
    ensures e.dataType != DATA_TYPE ==> r == Some(WrongFormatter) && e.attributes == old(e.attributes)
    ensures e.dataType == DATA_TYPE ==> (r, e.attributes) == Formatted(old(e.attributes))
  {
    if e.dataType != DATA_TYPE {
      return Some(WrongFormatter);
    }
    if !e.HasAttribute("description") {
      e.SetAttribute("description", Str(EMPTY_DESCRIPTION));
    }
    var linkedPath := LinkedPath(e.attributes);
    if linkedPath.Err? {
      return Some(linkedPath.exc);
    }
    e.SetAttribute("linked_path", linkedPath.value);
    return None;
  }

  // ---------------------------------------------------------------------
  // Properties

  /** The four path attributes agree in a and b. */
  predicate SamePaths(a: Attributes, b: Attributes)
  {
    forall k :: k in ["local_path", "network_path", "relative_path", "working_directory"] ==>
      (k in a <==> k in b) && (k in a ==> a[k] == b[k])
  }

  /** The linked path depends on the four path attributes only. */
  lemma LinkedPathReadsPaths(a: Attributes, b: Attributes)
    requires SamePaths(a, b)
    ensures LinkedPath(a) == LinkedPath(b)
  {
    assert "local_path" in ["local_path", "network_path", "relative_path", "working_directory"];
    assert "network_path" in ["local_path", "network_path", "relative_path", "working_directory"];
    assert "relative_path" in ["local_path", "network_path", "relative_path", "working_directory"];
    assert "working_directory" in ["local_path", "network_path", "relative_path", "working_directory"];
  }

  /** Setting description or linked_path leaves the path attributes alone. */
  lemma OutputsAreNotPaths(a: Attributes, k: string, v: Value)
    requires k == "description" || k == "linked_path"
    ensures SamePaths(a, a[k := v])
  {
  }

  /** Formatting twice is formatting once: the second run finds its own description and recomputes the same path. */
  lemma FormattedIdempotent(a: Attributes)
    requires Formatted(a).0.None?
    ensures Formatted(Formatted(a).1) == Formatted(a)
  {
    var d := Described(a);
    var p := LinkedPath(d).value;
    var b := d["linked_path" := p];
    OutputsAreNotPaths(d, "linked_path", p);
    assert Described(b) == b;
    LinkedPathReadsPaths(d, b);
    assert b["linked_path" := p] == b;
  }

  /** The description is kept when there is one, set to 'Empty description' otherwise; no other attribute but linked_path changes. */
  lemma DescriptionAndNothingElse(a: Attributes)
    ensures "description" in a ==> Formatted(a).1["description"] == a["description"]
    ensures "description" !in a ==> Formatted(a).1["description"] == Str(EMPTY_DESCRIPTION)
    ensures forall k :: k in a && k != "description" && k != "linked_path" ==> k in Formatted(a).1 && Formatted(a).1[k] == a[k]
    ensures Formatted(a).1.Keys == a.Keys + {"description"} + (if Formatted(a).0.None? then {"linked_path"} else {})
  {
  }

  /** A local path wins over everything; a network path over the relative one. */
  lemma Precedence(a: Attributes)
    ensures "local_path" in a ==> LinkedPath(a) == Ok(a["local_path"])
    ensures "local_path" !in a && "network_path" in a ==> LinkedPath(a) == Ok(a["network_path"])
    ensures "local_path" !in a && "network_path" !in a && "relative_path" !in a ==> LinkedPath(a) == Ok(Str(UNKNOWN))
  {
  }

  /**
   * With only string relative and working-directory paths, the linked path
   * ends with the relative path, and what precedes its last backslash is
   * the working directory when the relative path has no backslash.
   */
  lemma RelativeJoin(a: Attributes, directory: string, relative: string)
    requires "local_path" !in a && "network_path" !in a
    requires "relative_path" in a && a["relative_path"] == Str(relative)
    requires "working_directory" in a && a["working_directory"] == Str(directory)
    requires Lacks(relative, '\\')
    ensures LinkedPath(a) == Ok(Str(directory + "\\" + relative))
    ensures RPartitionHead(LinkedPath(a).value.s, "\\") == directory
  {
    var parts := [Str(directory), Str(relative)];
    assert [a["working_directory"]] + [a["relative_path"]] == parts;
    var ss := Strings(parts).value;
    assert |ss| == 2 && ss[0] == directory && ss[1] == relative;
    assert ss == [directory, relative];
    assert Join([directory, relative], "\\") == directory + "\\" + relative by {
      assert [directory, relative][1..] == [relative];
    }
    BeforeLastChar(directory, '\\', relative);
    assert directory + "\\" + relative == directory + ['\\'] + relative;
  }

  /** Without a working directory the relative path is the linked path; a non-string part raises TypeError. */
  lemma RelativeAlone(a: Attributes)
    requires "local_path" !in a && "network_path" !in a && "relative_path" in a && "working_directory" !in a
    ensures a["relative_path"].Str? ==> LinkedPath(a) == Ok(a["relative_path"])
    ensures !a["relative_path"].Str? ==> LinkedPath(a) == Err(TypeError)
  {
    var parts := [a["relative_path"]];
    assert [] + [a["relative_path"]] == parts;
    if a["relative_path"].Str? {
      var ss := Strings(parts).value;
      assert |ss| == 1 && ss[0] == a["relative_path"].s;
      assert ss == [a["relative_path"].s];
    }
  }
}
