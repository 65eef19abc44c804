/**
 * The Symantec AV scan-log formatter: before the message is built, each
 * numeric code attribute of the event (event, category, the three
 * actions) gets a companion *_map attribute holding the code's name, or
 * 'Unknown' for a code the tables do not list.
 */
module SymantecFormatter {
  import opened Common
  import opened Formatters

  const DATA_TYPE: string := "av:symantec:scanlog"
  const UNKNOWN: string := "Unknown"

  // The four code tables, each a dictionary from the code as written in
  // the log to its name.

  /** EVENT_NAMES */
  function EventName(code: string): Option<string>
  {
    match code
    case "1" => Some("GL_EVENT_IS_ALERT")
    case "2" => Some("GL_EVENT_SCAN_STOP")
    case "3" => Some("GL_EVENT_SCAN_START")
    case "4" => Some("GL_EVENT_PATTERN_UPDATE")
    case "5" => Some("GL_EVENT_INFECTION")
    case "6" => Some("GL_EVENT_FILE_NOT_OPEN")
    case "7" => Some("GL_EVENT_LOAD_PATTERN")
    case "8" => Some("GL_STD_MESSAGE_INFO")
    case "9" => Some("GL_STD_MESSAGE_ERROR")
    case "10" => Some("GL_EVENT_CHECKSUM")
    case "11" => Some("GL_EVENT_TRAP")
    case "12" => Some("GL_EVENT_CONFIG_CHANGE")
    case "13" => Some("GL_EVENT_SHUTDOWN")
    case "14" => Some("GL_EVENT_STARTUP")
    case "16" => Some("GL_EVENT_PATTERN_DOWNLOAD")
    case "17" => Some("GL_EVENT_TOO_MANY_VIRUSES")
    case "18" => Some("GL_EVENT_FWD_TO_QSERVER")
    case "19" => Some("GL_EVENT_SCANDLVR")
    case "20" => Some("GL_EVENT_BACKUP")
    case "21" => Some("GL_EVENT_SCAN_ABORT")
    case "22" => Some("GL_EVENT_RTS_LOAD_ERROR")
    case "23" => Some("GL_EVENT_RTS_LOAD")
    case "24" => Some("GL_EVENT_RTS_UNLOAD")
    case "25" => Some("GL_EVENT_REMOVE_CLIENT")
    case "26" => Some("GL_EVENT_SCAN_DELAYED")
    case "27" => Some("GL_EVENT_SCAN_RESTART")
    case "28" => Some("GL_EVENT_ADD_SAVROAMCLIENT_TOSERVER")
    case "29" => Some("GL_EVENT_REMOVE_SAVROAMCLIENT_FROMSERVER")
    case "30" => Some("GL_EVENT_LICENSE_WARNING")
    case "31" => Some("GL_EVENT_LICENSE_ERROR")
    case "32" => Some("GL_EVENT_LICENSE_GRACE")
    case "33" => Some("GL_EVENT_UNAUTHORIZED_COMM")
    case "34" => Some("GL_EVENT_LOG_FWD_THRD_ERR")
    case "35" => Some("GL_EVENT_LICENSE_INSTALLED")
    case "36" => Some("GL_EVENT_LICENSE_ALLOCATED")
    case "37" => Some("GL_EVENT_LICENSE_OK")
    case "38" => Some("GL_EVENT_LICENSE_DEALLOCATED")
    case "39" => Some("GL_EVENT_BAD_DEFS_ROLLBACK")
    case "40" => Some("GL_EVENT_BAD_DEFS_UNPROTECTED")
    case "41" => Some("GL_EVENT_SAV_PROVIDER_PARSING_ERROR")
    case "42" => Some("GL_EVENT_RTS_ERROR")
    case "43" => Some("GL_EVENT_COMPLIANCE_FAIL")
    case "44" => Some("GL_EVENT_COMPLIANCE_SUCCESS")
    case "45" => Some("GL_EVENT_SECURITY_SYMPROTECT_POLICYVIOLATION")
    case "46" => Some("GL_EVENT_ANOMALY_START")
    case "47" => Some("GL_EVENT_DETECTION_ACTION_TAKEN")
    case "48" => Some("GL_EVENT_REMEDIATION_ACTION_PENDING")
    case "49" => Some("GL_EVENT_REMEDIATION_ACTION_FAILED")
    case "50" => Some("GL_EVENT_REMEDIATION_ACTION_SUCCESSFUL")
    case "51" => Some("GL_EVENT_ANOMALY_FINISH")
    case "52" => Some("GL_EVENT_COMMS_LOGIN_FAILED")
    case "53" => Some("GL_EVENT_COMMS_LOGIN_SUCCESS")
    case "54" => Some("GL_EVENT_COMMS_UNAUTHORIZED_COMM")
    case "55" => Some("GL_EVENT_CLIENT_INSTALL_AV")
    case "56" => Some("GL_EVENT_CLIENT_INSTALL_FW")
    case "57" => Some("GL_EVENT_CLIENT_UNINSTALL")
    case "58" => Some("GL_EVENT_CLIENT_UNINSTALL_ROLLBACK")
    case "59" => Some("GL_EVENT_COMMS_SERVER_GROUP_ROOT_CERT_ISSUE")
    case "60" => Some("GL_EVENT_COMMS_SERVER_CERT_ISSUE")
    case "61" => Some("GL_EVENT_COMMS_TRUSTED_ROOT_CHANGE")
    case "62" => Some("GL_EVENT_COMMS_SERVER_CERT_STARTUP_FAILED")
    case "63" => Some("GL_EVENT_CLIENT_CHECKIN")
    case "64" => Some("GL_EVENT_CLIENT_NO_CHECKIN")
    case "65" => Some("GL_EVENT_SCAN_SUSPENDED")
    case "66" => Some("GL_EVENT_SCAN_RESUMED")
    case "67" => Some("GL_EVENT_SCAN_DURATION_INSUFFICIENT")
    case "68" => Some("GL_EVENT_CLIENT_MOVE")
    case "69" => Some("GL_EVENT_SCAN_FAILED_ENHANCED")
    case "70" => Some("GL_EVENT_MAX_event_name")
    case "71" => Some("GL_EVENT_HEUR_THREAT_NOW_WHITELISTED")
    case "72" => Some("GL_EVENT_INTERESTING_PROCESS_DETECTED_START")
    case "73" => Some("GL_EVENT_LOAD_ERROR_COH")
    case "74" => Some("GL_EVENT_LOAD_ERROR_SYKNAPPS")
    case "75" => Some("GL_EVENT_INTERESTING_PROCESS_DETECTED_FINISH")
    case "76" => Some("GL_EVENT_HPP_SCAN_NOT_SUPPORTED_FOR_OS")
    case "77" => Some("GL_EVENT_HEUR_THREAT_NOW_KNOWN")
    case _ => None
  }

  /** CATEGORY_NAMES */
  function CategoryName(code: string): Option<string>
  {
    match code
    case "1" => Some("GL_CAT_INFECTION")
    case "2" => Some("GL_CAT_SUMMARY")
    case "3" => Some("GL_CAT_PATTERN")
    case "4" => Some("GL_CAT_SECURITY")
    case _ => None
  }

  /** ACTION_1_2_NAMES */
  function Action12Name(code: string): Option<string>
  {
    match code
    case "1" => Some("Quarantine infected file")
    case "2" => Some("Rename infected file")
    case "3" => Some("Delete infected file")
    case "4" => Some("Leave alone (log only)")
    case "5" => Some("Clean virus from file")
    case "6" => Some("Clean or delete macros")
    case _ => None
  }

  /** ACTION_0_NAMES */
  function Action0Name(code: string): Option<string>
  {
    match code
    case "1" => Some("Quarantined")
    case "2" => Some("Renamed")
    case "3" => Some("Deleted")
    case "4" => Some("Left alone")
    case "5" => Some("Cleaned")
    case "6" => Some("Cleaned or macros deleted (no longer used as of Symantec AntiVirus 9.x)")
    case "7" => Some("Saved file as...")
    case "8" => Some("Sent to Intel (AMS)")
    case "9" => Some("Moved to backup location")
    case "10" => Some("Renamed backup file")
    case "11" => Some("Undo action in Quarantine View")
    case "12" => Some("Write protected or lack of permissions - Unable to act on file")
    case "13" => Some("Backed up file")
    case _ => None
  }
  /** A code attribute, the attribute its name is stored in, and the table. */
  datatype CodeMap = CodeMap(code: string, target: string, table: string -> Option<string>)

  const EVENT_CODE: CodeMap := CodeMap("event", "event_map", EventName)
  const CATEGORY_CODE: CodeMap := CodeMap("cat", "category_map", CategoryName)
  const ACTION1_CODE: CodeMap := CodeMap("action1", "action1_map", Action12Name)
  const ACTION2_CODE: CodeMap := CodeMap("action2", "action2_map", Action12Name)
  const ACTION0_CODE: CodeMap := CodeMap("action0", "action0_map", Action0Name)

  /** In the order GetMessages handles them. */
  const CODE_MAPS: seq<CodeMap> := [EVENT_CODE, CATEGORY_CODE, ACTION1_CODE, ACTION2_CODE, ACTION0_CODE]

  /** A list cannot be a dictionary key: looking one up raises TypeError. */
  predicate Unhashable(v: Value)
  {
    v.Ints? || v.Strs?
  }

  /** Step c's code attribute is present and is a list, so its lookup raises. */
  predicate Raises(a: Attributes, c: CodeMap)
  {
    c.code in a && Unhashable(a[c.code])
  }

  /** The first of the steps cs whose lookup raises TypeError, if any. */
  function FirstUnhashable(a: Attributes, cs: seq<CodeMap>): (r: Option<nat>)
    ensures r.Some? ==> r.value < |cs| && Raises(a, cs[r.value])
    ensures forall j :: 0 <= j < |cs| && (r.None? || j < r.value) ==> !Raises(a, cs[j])
    decreases |cs|
  {
    if cs == [] then None
    else if Raises(a, cs[0]) then Some(0)
    else
      match FirstUnhashable(a, cs[1..])
      case None =>
        assert forall j :: 1 <= j < |cs| ==> cs[j] == cs[1..][j - 1];
        None
      case Some(k) =>
        assert forall j :: 1 <= j < |cs| ==> cs[j] == cs[1..][j - 1];
        Some(k + 1)
  }

  /**
   * table.get(value, 'Unknown') for a value that can be a key: only a
   * string is one of the table's keys.  A list never gets here: its
   * lookup raises (FirstUnhashable).
   */
  function NameOf(table: string -> Option<string>, v: Value): string
  {
    if v.Str? && table(v.s).Some? then table(v.s).value else UNKNOWN
  }

  /** One `if hasattr(...)` step. */
  function MapCode(a: Attributes, c: CodeMap): Attributes
  {
    if c.code in a then a[c.target := Str(NameOf(c.table, a[c.code]))] else a
  }

  /** The steps for cs, in order. */
  function MapCodes(a: Attributes, cs: seq<CodeMap>): Attributes
    decreases |cs|
  {
    if cs == [] then a else MapCodes(MapCode(a, cs[0]), cs[1..])
  }

  /** The attributes after all five steps. */
  function Mapped(a: Attributes): Attributes
  {
    MapCodes(a, CODE_MAPS)
  }

  /** No code attribute is a target, and no two steps share a target. */
  predicate Distinct(cs: seq<CodeMap>)
  {
    forall i, j :: 0 <= i < |cs| && 0 <= j < |cs| ==>
      cs[i].code != cs[j].target && (i != j ==> cs[i].target != cs[j].target)
  }

  /**
   * Raises WrongFormatter for another data type, leaving the event as it
   * was; raises TypeError at the first step whose code is a list, the
   * steps before it done; otherwise adds the *_map attributes and hands
   * over to the generic message building (None: no exception).
   */
  method GetMessages(e: EventObject) returns (r: Option<Exc>)
    modifies e
    ensures e.dataType != DATA_TYPE ==> r == Some(WrongFormatter) && e.attributes == old(e.attributes)
    ensures e.dataType == DATA_TYPE && FirstUnhashable(old(e.attributes), CODE_MAPS).None? ==>
      r == None && e.attributes == Mapped(old(e.attributes))
    ensures e.dataType == DATA_TYPE && FirstUnhashable(old(e.attributes), CODE_MAPS).Some? ==>
      r == Some(TypeError) &&
      e.attributes == MapCodes(old(e.attributes), CODE_MAPS[..FirstUnhashable(old(e.attributes), CODE_MAPS).value])
  {
    if e.dataType != DATA_TYPE {
      return Some(WrongFormatter);
    }
    ghost var a := e.attributes;
    CodeMapsDistinct();
    assert CODE_MAPS[..0] == [];
    ghost var before := e.attributes;
    r := MapStep(e, CODE_MAPS[0]);  // event
    StepDone(a, 0, before, r, e.attributes);
    if r.Some? {
      return;
    }
    before := e.attributes;
    r := MapStep(e, CODE_MAPS[1]);  // cat
    StepDone(a, 1, before, r, e.attributes);
    if r.Some? {
      return;
    }
    before := e.attributes;
    r := MapStep(e, CODE_MAPS[2]);  // action1
    StepDone(a, 2, before, r, e.attributes);
    if r.Some? {
      return;
    }
    before := e.attributes;
    r := MapStep(e, CODE_MAPS[3]);  // action2
    StepDone(a, 3, before, r, e.attributes);
    if r.Some? {
      return;
    }
    before := e.attributes;
    r := MapStep(e, CODE_MAPS[4]);  // action0
    StepDone(a, 4, before, r, e.attributes);
    if r.Some? {
      return;
    }
    NoStepRaises(a);
  }

  /** One `if hasattr(...)` step: TypeError for a list-valued code, else its *_map attribute is set. */
  method MapStep(e: EventObject, c: CodeMap) returns (r: Option<Exc>)
    modifies e
    ensures Raises(old(e.attributes), c) ==> r == Some(TypeError) && e.attributes == old(e.attributes)
    ensures !Raises(old(e.attributes), c) ==> r == None && e.attributes == MapCode(old(e.attributes), c)
  {
    if e.HasAttribute(c.code) {
      var v := e.attributes[c.code];
      if Unhashable(v) {
        return Some(TypeError);
      }
      e.SetAttribute(c.target, Str(NameOf(c.table, v)));
    }
    return None;
  }

  /**
   * Before step k, with no earlier step raising, the attributes are the
   * first k steps' and still hold the original code; step k raises
   * exactly when it is the first to, and otherwise gives the first k + 1
   * steps' attributes.
   */
  lemma StepState(a: Attributes, k: nat)
    requires Distinct(CODE_MAPS) && k < |CODE_MAPS|
    requires forall j :: 0 <= j < k ==> !Raises(a, CODE_MAPS[j])
    ensures var p, c := MapCodes(a, CODE_MAPS[..k]), CODE_MAPS[k];
      && (Raises(p, c) <==> Raises(a, c))
      && (Raises(a, c) <==> FirstUnhashable(a, CODE_MAPS) == Some(k))
      && MapCode(p, c) == MapCodes(a, CODE_MAPS[..k + 1])
  {
    var c := CODE_MAPS[k];
    MapCodesFrame(a, CODE_MAPS[..k], c.code);
    MapCodesSnoc(a, CODE_MAPS, k);
  }

  /** What one MapStep call on top of the first k steps does, in terms of the original attributes. */
  lemma StepDone(a: Attributes, k: nat, before: Attributes, r: Option<Exc>, after: Attributes)
    requires Distinct(CODE_MAPS) && k < |CODE_MAPS|
    requires forall j :: 0 <= j < k ==> !Raises(a, CODE_MAPS[j])
    requires before == MapCodes(a, CODE_MAPS[..k])
    requires Raises(before, CODE_MAPS[k]) ==> r == Some(TypeError) && after == before
    requires !Raises(before, CODE_MAPS[k]) ==> r == None && after == MapCode(before, CODE_MAPS[k])
    ensures r.Some? ==> r == Some(TypeError) && FirstUnhashable(a, CODE_MAPS) == Some(k) && after == MapCodes(a, CODE_MAPS[..k])
    ensures r.None? ==> after == MapCodes(a, CODE_MAPS[..k + 1]) && forall j :: 0 <= j < k + 1 ==> !Raises(a, CODE_MAPS[j])
  {
    StepState(a, k);
  }

  /** When no step raises, the five steps are all of Mapped. */
  lemma NoStepRaises(a: Attributes)
    requires forall j :: 0 <= j < |CODE_MAPS| ==> !Raises(a, CODE_MAPS[j])
    ensures FirstUnhashable(a, CODE_MAPS).None?
    ensures MapCodes(a, CODE_MAPS[..|CODE_MAPS|]) == Mapped(a)
  {
    assert CODE_MAPS[..|CODE_MAPS|] == CODE_MAPS;
  }

  /** The first k + 1 steps are the first k, then step k. */
  lemma {:induction false} MapCodesSnoc(a: Attributes, cs: seq<CodeMap>, k: nat)
    requires k < |cs|
    ensures MapCodes(a, cs[..k + 1]) == MapCode(MapCodes(a, cs[..k]), cs[k])
    decreases k
  {
    if k == 0 {
      assert cs[..1][1..] == [] && cs[..0] == [];
    } else {
      MapCodesSnoc(MapCode(a, cs[0]), cs[1..], k - 1);
      assert cs[..k + 1][1..] == cs[1..][..k];
      assert cs[..k][1..] == cs[1..][..k - 1];
      assert cs[1..][k - 1] == cs[k];
    }
  }

  /** The five steps written out, as GetMessages takes them. */
  lemma MappedSteps(a: Attributes)
    ensures Mapped(a) == MapCode(MapCode(MapCode(MapCode(MapCode(a, EVENT_CODE), CATEGORY_CODE), ACTION1_CODE), ACTION2_CODE), ACTION0_CODE)
  {
    var cs := CODE_MAPS;
    var a1 := MapCode(a, EVENT_CODE);
    var a2 := MapCode(a1, CATEGORY_CODE);
    var a3 := MapCode(a2, ACTION1_CODE);
    var a4 := MapCode(a3, ACTION2_CODE);
    var a5 := MapCode(a4, ACTION0_CODE);
    assert cs[5..] == [];
    assert cs[4..][0] == ACTION0_CODE && cs[4..][1..] == cs[5..];
    assert cs[3..][0] == ACTION2_CODE && cs[3..][1..] == cs[4..];
    assert cs[2..][0] == ACTION1_CODE && cs[2..][1..] == cs[3..];
    assert cs[1..][0] == CATEGORY_CODE && cs[1..][1..] == cs[2..];
    assert MapCodes(a4, cs[4..]) == a5;
    assert MapCodes(a3, cs[3..]) == a5;
    assert MapCodes(a2, cs[2..]) == a5;
    assert MapCodes(a1, cs[1..]) == a5;
  }

  /** A step changes only its own *_map attribute. */
  lemma MapCodeFrame(a: Attributes, c: CodeMap, k: string)
    requires k != c.target
    ensures (k in MapCode(a, c) <==> k in a) && (k in a ==> MapCode(a, c)[k] == a[k])
  {
  }

  /** Steps change only their own *_map attributes. */
  lemma {:induction false} MapCodesFrame(a: Attributes, cs: seq<CodeMap>, k: string)
    requires forall j :: 0 <= j < |cs| ==> cs[j].target != k
    ensures var r := MapCodes(a, cs); (k in r <==> k in a) && (k in a ==> r[k] == a[k])
    decreases |cs|
  {
    if cs != [] {
      MapCodeFrame(a, cs[0], k);
      MapCodesFrame(MapCode(a, cs[0]), cs[1..], k);
    }
  }

  /** After steps with distinct names, step i's target holds its code's name. */
  lemma {:induction false} MapCodesSet(a: Attributes, cs: seq<CodeMap>, i: nat)
    requires Distinct(cs) && i < |cs|
    ensures var c, r := cs[i], MapCodes(a, cs);
      (c.code in a ==> c.target in r && r[c.target] == Str(NameOf(c.table, a[c.code])))
      && (c.code !in a ==> (c.target in r <==> c.target in a) && (c.target in a ==> r[c.target] == a[c.target]))
    decreases |cs|
  {
    var a1 := MapCode(a, cs[0]);
    assert Distinct(cs[1..]) by {
      forall p, q | 0 <= p < |cs| - 1 && 0 <= q < |cs| - 1
        ensures cs[1..][p].code != cs[1..][q].target && (p != q ==> cs[1..][p].target != cs[1..][q].target)
      {
        assert cs[1..][p] == cs[p + 1] && cs[1..][q] == cs[q + 1];
      }
    }
    if i == 0 {
      assert forall j :: 0 <= j < |cs[1..]| ==> cs[1..][j] == cs[j + 1];
      MapCodesFrame(a1, cs[1..], cs[0].target);
    } else {
      MapCodesSet(a1, cs[1..], i - 1);
      assert cs[1..][i - 1] == cs[i];
      MapCodeFrame(a, cs[0], cs[i].code);
      MapCodeFrame(a, cs[0], cs[i].target);
    }
  }

  lemma CodeMapsDistinct()
    ensures Distinct(CODE_MAPS)
  {
    forall i, j | 0 <= i < |CODE_MAPS| && 0 <= j < |CODE_MAPS|
      ensures CODE_MAPS[i].code != CODE_MAPS[j].target && (i != j ==> CODE_MAPS[i].target != CODE_MAPS[j].target)
    {
      assert |CODE_MAPS[i].code| < |CODE_MAPS[j].target|;
      if i != j && |CODE_MAPS[i].target| == |CODE_MAPS[j].target| {
        assert CODE_MAPS[i].target[6] != CODE_MAPS[j].target[6];
      }
    }
  }

  /**
   * Each code attribute that is present gets its name (or 'Unknown') in
   * its *_map attribute; an absent one leaves that attribute as it was,
   * unset if it was unset.
   */
  lemma MappedCode(a: Attributes, i: nat)
    requires i < |CODE_MAPS|
    ensures var c, r := CODE_MAPS[i], Mapped(a);
      (c.code in a ==> c.target in r && r[c.target] == Str(NameOf(c.table, a[c.code])))
      && (c.code !in a ==> (c.target in r <==> c.target in a) && (c.target in a ==> r[c.target] == a[c.target]))
    ensures Raises(a, CODE_MAPS[i]) ==>
      FirstUnhashable(a, CODE_MAPS).Some? && FirstUnhashable(a, CODE_MAPS).value <= i
  {
    CodeMapsDistinct();
    MapCodesSet(a, CODE_MAPS, i);
  }

  /** Every attribute other than the five *_map ones is left alone. */
  lemma MappedOthers(a: Attributes, k: string)
    requires forall i :: 0 <= i < |CODE_MAPS| ==> CODE_MAPS[i].target != k
    ensures var r := Mapped(a); (k in r <==> k in a) && (k in a ==> r[k] == a[k])
  {
    MapCodesFrame(a, CODE_MAPS, k);
  }

  /** Mapping twice is mapping once: the codes themselves are never overwritten. */
  lemma MappedIdempotent(a: Attributes)
    ensures Mapped(Mapped(a)) == Mapped(a)
  {
    var r := Mapped(a);
    forall k
      ensures (k in Mapped(r) <==> k in r) && (k in r ==> Mapped(r)[k] == r[k])
    {
      if i :| 0 <= i < |CODE_MAPS| && CODE_MAPS[i].target == k {
        MappedCode(a, i);
        MappedCode(r, i);
        MappedOthers(a, CODE_MAPS[i].code);
      } else {
        MappedOthers(r, k);
      }
    }
    assert Mapped(r).Keys == r.Keys;
  }

  /** A list-valued event code raises at the first step, before any *_map attribute is set. */
  lemma EventListRaises(a: Attributes)
    requires "event" in a && Unhashable(a["event"])
    ensures FirstUnhashable(a, CODE_MAPS) == Some(0)
    ensures MapCodes(a, CODE_MAPS[..0]) == a
  {
    assert Raises(a, CODE_MAPS[0]);
    assert CODE_MAPS[..0] == [];
  }

  /** Actions 1 and 2 are named by one table, action 0 by another. */
  lemma ActionTables()
    ensures ACTION1_CODE.table == ACTION2_CODE.table == Action12Name
    ensures ACTION0_CODE.table == Action0Name
  {
  }

  /** The actions 1 and 2 have the codes 1-6. */
  lemma Action12Codes(code: string)
    ensures Action12Name(code).Some? <==> code in {"1", "2", "3", "4", "5", "6"}
  {
  }

  /** Action 0 has the codes 1-13. */
  lemma Action0Codes(code: string)
    ensures Action0Name(code).Some? <==> code in {"1", "2", "3", "4", "5", "6", "7", "8", "9", "10", "11", "12", "13"}
  {
  }

  /** The category has the codes 1-4. */
  lemma CategoryCodes(code: string)
    ensures CategoryName(code).Some? <==> code in {"1", "2", "3", "4"}
  {
  }

  /** Event code 15 has no name. */
  lemma Event15Unknown()
    ensures EventName("15").None? && NameOf(EventName, Str("15")) == UNKNOWN
  {
  }
}
