/**
 * The file-system stat formatter: GetSources builds the long source from
 * the file-system type and the timestamp description, and GetMessages
 * marks an event whose allocated attribute is false as unallocated.
 */
module FilestatFormatter {
  import opened Common
  import opened Formatters

  const DATA_TYPE: string := "fs:stat"
  const UNKNOWN_FS: string := "Unknown FS"
  const TIME: string := "Time"
  const UNALLOCATED: string := "unallocated"

  /** '{0:s}'.format(v): a string as it is, None as 'None'; a number or a bool raises ValueError. */
  function FormatS(v: Value): Result<string>
  {
    match v
    case Str(s) => Ok(s)
    case Null => Ok("None")
    case _ => Err(ValueError)
  }

  /** u'{0:s} {1:s}'.format(fs_type, timestamp_desc), each with its default. */
  function SourceString(a: Attributes): Result<string>
  {
    match FormatS(GetAttr(a, "fs_type", Str(UNKNOWN_FS)))
    case Err(x) => Err(x)
    case Ok(fs) =>
      match FormatS(GetAttr(a, "timestamp_desc", Str(TIME)))
      case Err(x) => Err(x)
      case Ok(desc) => Ok(fs + " " + desc)
  }

  /** The attributes GetMessages leaves: 'unallocated' added when allocated is there and false. */
  function Marked(a: Attributes): Attributes
  {
    if !Truthy(GetAttr(a, "allocated", Bool(true))) then a["unallocated" := Str(UNALLOCATED)] else a
  }

  /** PfileStatFormatter; source_string is None until GetSources has run. */
  class PfileStatFormatter {
    var sourceString: Option<string>

    constructor()
      ensures sourceString.None?
    {
      sourceString := None;
    }

    /**
     * GetSources up to the generic source building: WrongFormatter for
     * another data type, else source_string set from the event, or the
     * ValueError of its formatting.
     */
    method GetSources(e: EventObject) returns (r: Option<Exc>)
      modifies this
      ensures e.dataType != DATA_TYPE ==> r == Some(WrongFormatter) && sourceString == old(sourceString)
      ensures e.dataType == DATA_TYPE && SourceString(e.attributes).Err? ==>
        r == Some(SourceString(e.attributes).exc) && sourceString == old(sourceString)
      ensures e.dataType == DATA_TYPE && SourceString(e.attributes).Ok? ==>
        r == None && sourceString == Some(SourceString(e.attributes).value)
    {
      if e.dataType != DATA_TYPE {
        return Some(WrongFormatter);
      }
      var fsType := GetAttr(e.attributes, "fs_type", Str(UNKNOWN_FS));
      var timestampDesc := GetAttr(e.attributes, "timestamp_desc", Str(TIME));
      var fs := FormatS(fsType);
      if fs.Err? {
        return Some(fs.exc);
      }
      var desc := FormatS(timestampDesc);
      if desc.Err? {
        return Some(desc.exc);
      }
      sourceString := Some(fs.value + " " + desc.value);
      return None;
    }

    /** GetMessages up to the generic message building. */
    method GetMessages(e: EventObject) returns (r: Option<Exc>)
      modifies e
      ensures e.dataType != DATA_TYPE ==> r == Some(WrongFormatter) && e.attributes == old(e.attributes)
      ensures e.dataType == DATA_TYPE ==> r == None && e.attributes == Marked(old(e.attributes))
    {
      if e.dataType != DATA_TYPE {
        return Some(WrongFormatter);
      }
      if !Truthy(GetAttr(e.attributes, "allocated", Bool(true))) {
        e.SetAttribute("unallocated", Str(UNALLOCATED));
      }
      return None;
    }
  }

  // ---------------------------------------------------------------------
  // Properties

  /** Missing attributes read as 'Unknown FS' and 'Time'. */
  lemma SourceDefaults(a: Attributes)
    requires "fs_type" !in a && "timestamp_desc" !in a
    ensures SourceString(a) == Ok(UNKNOWN_FS + " " + TIME)
  {
  }

  /** With string attributes and a file-system type without spaces, the source splits back at its first space. */
  lemma SourceRoundTrip(a: Attributes, fs: string, desc: string)
    requires "fs_type" in a && a["fs_type"] == Str(fs) && "timestamp_desc" in a && a["timestamp_desc"] == Str(desc)
    requires Lacks(fs, ' ')
    ensures SourceString(a).Ok?
    ensures Partition(SourceString(a).value, " ") == (fs, " ", desc)
  {
    FirstAtChar(fs, ' ', desc);
    assert fs + " " + desc == fs + [' '] + desc;
    PartitionFirst(fs + " " + desc, " ", |fs|);
    assert (fs + " " + desc)[..|fs|] == fs && (fs + " " + desc)[|fs| + 1..] == desc;
  }

  /** Only strings and None can be formatted: a non-string type or description raises ValueError. */
  lemma SourceErrors(a: Attributes)
    ensures SourceString(a).Err? <==>
      (GetAttr(a, "fs_type", Str(UNKNOWN_FS)) != Null && !GetAttr(a, "fs_type", Str(UNKNOWN_FS)).Str?) ||
      (GetAttr(a, "timestamp_desc", Str(TIME)) != Null && !GetAttr(a, "timestamp_desc", Str(TIME)).Str?)
    ensures SourceString(a).Err? ==> SourceString(a).exc == ValueError
  {
  }

  /** 'unallocated' is added exactly when allocated is present and false; a missing one counts as allocated. */
  lemma UnallocatedIff(a: Attributes)
    requires "unallocated" !in a
    ensures "unallocated" in Marked(a) <==> "allocated" in a && !Truthy(a["allocated"])
    ensures "unallocated" in Marked(a) ==> Marked(a)["unallocated"] == Str(UNALLOCATED)
    ensures forall k :: k in a ==> k in Marked(a) && (k != "unallocated" ==> Marked(a)[k] == a[k])
  {
  }

  /** Marking twice is marking once. */
  lemma MarkedIdempotent(a: Attributes)
    ensures Marked(Marked(a)) == Marked(a)
  {
  }
}
