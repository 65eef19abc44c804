/**
 * The Microsoft Office MRU registry plugin: every value named "Item <n>"
 * holding one "[F00000000][T<filetime>]...*<file name>" entry gives one
 * event, and only "Item 1" carries its FILETIME as the timestamp.
 */
module OfficeMru {
  import opened Common
  import opened Timelib
  import opened WinReg

  const DESCRIPTION := "Microsoft Office MRU"

  predicate IsDigit(c: char)
  {
    '0' <= c <= '9'
  }

  /**
   * _RE_VALUE_NAME searched in a name: "item " in any ASCII case, then
   * one or more digits, then the end ('$' also matches before a final
   * newline).
   */
  predicate NameMatches(name: string)
  {
    ItemName(if name != [] && name[|name| - 1] == '\n' then name[..|name| - 1] else name)
  }

  /** "item ", in any ASCII case, followed by one or more digits and nothing else. */
  predicate ItemName(body: string)
  {
    |body| >= 6 && ItemWord(body) && forall i :: 5 <= i < |body| ==> IsDigit(body[i])
  }

  /** "item " in any ASCII case at the start of s (re.I folds ASCII letters only). */
  predicate ItemWord(s: string)
    requires |s| >= 5
  {
    LowerChar(s[0]) == 'i' && LowerChar(s[1]) == 't' && LowerChar(s[2]) == 'e' && LowerChar(s[3]) == 'm' && s[4] == ' '
  }

  // ---------------------------------------------------------------------
  // _RE_VALUE_DATA: \[F00000000\]\[T([0-9A-Z]+)\].*\*[\\]?(.*)

  const DATA_PREFIX := "[F00000000][T"

  predicate IsTimeChar(c: char)
  {
    '0' <= c <= '9' || 'A' <= c <= 'Z'
  }

  /** The end of the longest run of [0-9A-Z] starting at i. */
  function RunEnd(s: string, i: nat): (r: nat)
    requires i <= |s|
    ensures i <= r <= |s|
    ensures forall k :: i <= k < r ==> IsTimeChar(s[k])
    ensures r < |s| ==> !IsTimeChar(s[r])
    decreases |s| - i
  {
    if i < |s| && IsTimeChar(s[i]) then RunEnd(s, i + 1) else i
  }

  /** The end of the line at i: '.' matches every character but a newline. */
  function LineEnd(s: string, i: nat): (r: nat)
    requires i <= |s|
    ensures i <= r <= |s|
    ensures forall k :: i <= k < r ==> s[k] != '\n'
    ensures r < |s| ==> s[r] == '\n'
    decreases |s| - i
  {
    if i < |s| && s[i] != '\n' then LineEnd(s, i + 1) else i
  }

  /** The last '*' in s[i..e]: where the greedy '.*\*' stops. */
  function LastStar(s: string, i: nat, e: nat): (r: Option<nat>)
    requires i <= e <= |s|
    ensures r.Some? ==> i <= r.value < e && s[r.value] == '*' && forall k :: r.value < k < e ==> s[k] != '*'
    ensures r.None? ==> forall k :: i <= k < e ==> s[k] != '*'
    decreases e - i
  {
    if e == i then None
    else if s[e - 1] == '*' then Some(e - 1)
    else LastStar(s, i, e - 1)
  }

  /** One match: its two groups and where it ends. */
  datatype Match = Match(filetime: string, filename: string, end: nat)

  /** _RE_VALUE_DATA matched at position i, if it matches there. */
  function MatchAt(s: string, i: nat): (r: Option<Match>)
    requires i <= |s|
    ensures r.Some? ==> i < r.value.end <= |s|
    ensures r.Some? ==> r.value.filetime != [] && forall k :: 0 <= k < |r.value.filetime| ==> IsTimeChar(r.value.filetime[k])
    ensures r.Some? ==> forall k :: 0 <= k < |r.value.filename| ==> r.value.filename[k] != '\n'
  {
    var p := i + |DATA_PREFIX|;
    if p > |s| || s[i..p] != DATA_PREFIX then None else MatchGroups(s, p)
  }

  /** The rest of the pattern after the literal prefix, which ends at p. */
  function MatchGroups(s: string, p: nat): (r: Option<Match>)
    requires p <= |s|
    ensures r.Some? ==> p < r.value.end <= |s|
    ensures r.Some? ==> r.value.filetime != [] && forall k :: 0 <= k < |r.value.filetime| ==> IsTimeChar(r.value.filetime[k])
    ensures r.Some? ==> forall k :: 0 <= k < |r.value.filename| ==> r.value.filename[k] != '\n'
  {
    var t := RunEnd(s, p);
    if t == p || t == |s| || s[t] != ']' then None
    else MatchName(s, p, t)
  }

  /** After "...]": the greedy '.*' up to the line's last '*', an optional backslash, then the file name. */
  function MatchName(s: string, p: nat, t: nat): (r: Option<Match>)
    requires p < t < |s|
    ensures r.Some? ==> t < r.value.end <= |s| && r.value.filetime == s[p..t]
    ensures r.Some? ==> forall k :: 0 <= k < |r.value.filename| ==> r.value.filename[k] != '\n'
  {
    var e := LineEnd(s, t + 1);
    var star := LastStar(s, t + 1, e);
    if star.None? then None
    else
      var k := star.value;
      var f := if k + 1 < e && s[k + 1] == '\\' then k + 2 else k + 1;
      Some(Match(s[p..t], s[f..e], e))
  }

  /** re.findall from position i: the groups of every non-overlapping match, left to right. */
  function FindAll(s: string, i: nat): (r: seq<(string, string)>)
    requires i <= |s|
    decreases |s| - i
  {
    if i == |s| then []
    else
      match MatchAt(s, i)
      case Some(m) => [(m.filetime, m.filename)] + FindAll(s, m.end)
      case None => FindAll(s, i + 1)
  }

  /** int(text, 16), and 0 when that raises ValueError. */
  function FileTime(text: string): int
  {
    match PyInt(text, 16)
    case Some(n) => n
    case None => 0
  }

  // ---------------------------------------------------------------------
  // GetEntries

  /** The values the plugin turns into events: a named "Item <n>" value holding one MRU entry. */
  predicate Accepted(v: RegValue)
  {
    v.name != [] && NameMatches(v.name) && DataTruthy(v.data) && v.data.StrData? && |FindAll(v.data.s, 0)| == 1
  }

  /** The timestamp of an accepted value: its FILETIME for "Item 1", 0 for every other. */
  function Timestamp(v: RegValue): int
    requires Accepted(v)
  {
    if v.name == "Item 1" then FromFiletime(FileTime(FindAll(v.data.s, 0)[0].0)) else 0
  }

  /** The event of one value, or None when the value is skipped. */
  function ValueEvent(keyPath: string, v: RegValue): (r: Option<RegistryEvent>)
  {
    if Accepted(v) then Some(RegistryEvent(keyPath, map[v.name := v.data], Timestamp(v), NoUsage, SourceAppend(DESCRIPTION)))
    else None
  }

  /** OfficeMRUPlugin.GetEntries: the events of the key's values, in order. */
  function GetEntries(key: RegKey): (r: seq<RegistryEvent>)
    ensures |r| <= |key.values|
  {
    Collect(v => ValueEvent(key.path, v), key.values)
  }

  // ---------------------------------------------------------------------
  // Properties

  /**
   * A value gives an event exactly when its name is "Item <n>", its data a
   * non-empty string holding one MRU entry; the event maps the name to the
   * data.
   */
  lemma ValueEventCases(keyPath: string, v: RegValue)
    ensures ValueEvent(keyPath, v).Some? <==>
      NameMatches(v.name) && v.data.StrData? && v.data.s != [] && |FindAll(v.data.s, 0)| == 1
  {
  }

  /** An event maps the value's name to its data, under the key's path, with the plugin's source suffix. */
  lemma ValueEventShape(keyPath: string, v: RegValue)
    requires ValueEvent(keyPath, v).Some?
    ensures var e := ValueEvent(keyPath, v).value;
      e.keyPath == keyPath && e.text == map[v.name := v.data] && e.usage == NoUsage &&
      e.sourceAppend == ": " + DESCRIPTION
  {
  }

  /** Only the value named exactly "Item 1" has a timestamp; every other event is at 0. */
  lemma OnlyItemOneTimed(keyPath: string, v: RegValue)
    requires ValueEvent(keyPath, v).Some? && v.name != "Item 1"
    ensures ValueEvent(keyPath, v).value.timestamp == 0
  {
  }

  /** "Item 1" carries its entry's FILETIME, read as hexadecimal (0 when unreadable). */
  lemma ItemOneTimed(keyPath: string, v: RegValue)
    requires ValueEvent(keyPath, v).Some? && v.name == "Item 1"
    ensures ValueEvent(keyPath, v).value.timestamp == FromFiletime(FileTime(FindAll(v.data.s, 0)[0].0))
  {
  }

  /** The event names the value and holds its data, a non-empty string, under an "Item <n>" name. */
  predicate Describes(v: RegValue, e: RegistryEvent)
  {
    e.text == map[v.name := v.data] && NameMatches(v.name) && v.data.StrData? && v.data.s != []
  }

  /**
   * Every event of a key maps the name of one of its values to its data;
   * that name is "Item <n>", the data a non-empty string with one entry.
   */
  lemma EventsFromValues(key: RegKey, i: nat)
    requires i < |GetEntries(key)|
    ensures exists j ::
      0 <= j < |key.values| && ValueEvent(key.path, key.values[j]) == Some(GetEntries(key)[i]) &&
      Describes(key.values[j], GetEntries(key)[i])
  {
    var f := v => ValueEvent(key.path, v);
    CollectFrom(f, key.values, i);
    var j :| 0 <= j < |key.values| && f(key.values[j]) == Some(GetEntries(key)[i]);
    ValueEventCases(key.path, key.values[j]);
    ValueEventShape(key.path, key.values[j]);
  }

  /** Names the plugin accepts, whatever their case, with or without a final newline. */
  lemma NamesAccepted(a: string, b: string, c: string)
    requires a == "Item 1" && b == "ITEM 12" && c == "item 7\n"
    ensures NameMatches(a) && NameMatches(b) && NameMatches(c)
  {
    assert a[|a| - 1] != '\n' && ItemWord(a) && IsDigit(a[5]);
    assert b[|b| - 1] != '\n' && ItemWord(b) && IsDigit(b[5]) && IsDigit(b[6]);
    var body := c[..|c| - 1];
    assert c[|c| - 1] == '\n' && |body| == 6 && ItemWord(body) && IsDigit(body[5]);
  }

  /** Names the plugin skips: no number, a trailing letter, a second space, another word. */
  lemma NamesRejected(a: string, b: string, c: string, d: string)
    requires a == "Item" && b == "Item 1a" && c == "Item  1" && d == "MRU0"
    ensures !NameMatches(a) && !NameMatches(b) && !NameMatches(c) && !NameMatches(d)
  {
    assert a[|a| - 1] != '\n' && |a| < 6 && d[|d| - 1] != '\n' && |d| < 6;
    assert b[|b| - 1] != '\n' && !ItemName(b) by {
      assert !IsDigit(b[6]);
    }
    assert c[|c| - 1] != '\n' && !ItemName(c) by {
      assert !IsDigit(c[5]);
    }
  }

  /** Where the FILETIME run ends, from the characters around it. */
  lemma RunEndAt(s: string, i: nat, j: nat)
    requires i <= j < |s| && !IsTimeChar(s[j])
    requires forall k :: i <= k < j ==> IsTimeChar(s[k])
    ensures RunEnd(s, i) == j
  {
  }

  /** A line without a newline runs to the end. */
  lemma LineEndAtEnd(s: string, i: nat)
    requires i <= |s|
    requires forall k :: i <= k < |s| ==> s[k] != '\n'
    ensures LineEnd(s, i) == |s|
  {
  }

  /** The last '*', from the characters after it. */
  lemma LastStarAt(s: string, i: nat, k: nat)
    requires i <= k < |s| && s[k] == '*'
    requires forall j :: k < j < |s| ==> s[j] != '*'
    ensures LastStar(s, i, |s|) == Some(k)
  {
  }

  /** The layout of a single-entry value, position by position. */
  lemma EntryLayout(t: string, mid: string, name: string)
    ensures var s := DATA_PREFIX + t + "]" + mid + "*" + name;
      var p, q, k := |DATA_PREFIX|, |DATA_PREFIX| + |t|, |s| - |name| - 1;
      |s| == q + 1 + |mid| + 1 + |name| && s[..p] == DATA_PREFIX && s[p..q] == t && s[q] == ']' && s[k] == '*' &&
      s[k + 1..] == name && (forall j :: p <= j < q ==> s[j] == t[j - p]) &&
      (forall j :: q < j < k ==> s[j] == mid[j - q - 1]) && (forall j :: k < j < |s| ==> s[j] == name[j - k - 1])
  {
  }

  /** The file name group: everything after the last '*' (and its optional backslash) to the end. */
  lemma NameGroup(s: string, p: nat, q: nat, k: nat)
    requires p < q < |s| && k < |s|
    requires LineEnd(s, q + 1) == |s| && LastStar(s, q + 1, |s|) == Some(k)
    requires k + 1 == |s| || s[k + 1] != '\\'
    ensures MatchName(s, p, q) == Some(Match(s[p..q], s[k + 1..], |s|))
  {
    assert s[k + 1..|s|] == s[k + 1..];
  }

  /** The whole pattern at position 0, from the prefix, the FILETIME run and the rest. */
  lemma MatchAtStart(s: string, q: nat, m: Match)
    requires |DATA_PREFIX| < q < |s| && s[..|DATA_PREFIX|] == DATA_PREFIX
    requires RunEnd(s, |DATA_PREFIX|) == q && s[q] == ']'
    requires MatchName(s, |DATA_PREFIX|, q) == Some(m)
    ensures MatchAt(s, 0) == Some(m)
  {
    assert MatchGroups(s, |DATA_PREFIX|) == Some(m);
    assert s[0..|DATA_PREFIX|] == DATA_PREFIX;
  }

  /** A match that runs to the end of the value is the only one findall reports from there. */
  lemma LastMatch(s: string, i: nat, m: Match)
    requires i < |s| && MatchAt(s, i) == Some(m) && m.end == |s|
    ensures FindAll(s, i) == [(m.filetime, m.filename)]
  {
    assert FindAll(s, |s|) == [];
  }

  /**
   * A value holding a single entry: the prefix, a FILETIME group, ']',
   * anything up to the last '*' of the line, then the file name.
   */
  lemma SingleEntry(s: string, t: string, mid: string, name: string)
    requires s == DATA_PREFIX + t + "]" + mid + "*" + name
    requires t != [] && forall k :: 0 <= k < |t| ==> IsTimeChar(t[k])
    requires forall k :: 0 <= k < |mid| ==> mid[k] != '\n'
    requires forall k :: 0 <= k < |name| ==> name[k] != '\n' && name[k] != '*'
    requires name == [] || name[0] != '\\'
    ensures FindAll(s, 0) == [(t, name)]
  {
    var p, q, k := |DATA_PREFIX|, |DATA_PREFIX| + |t|, |s| - |name| - 1;
    EntryLayout(t, mid, name);
    RunEndAt(s, p, q);
    LineEndAtEnd(s, q + 1);
    LastStarAt(s, q + 1, k);
    NameGroup(s, p, q, k);
    MatchAtStart(s, q, Match(t, name, |s|));
    LastMatch(s, 0, Match(t, name, |s|));
  }

  /** The Word File MRU entry of the test hive: one match, with its FILETIME and file name. */
  lemma OfficeFourteenEntry(s: string)
    requires s == "[F00000000][T" + "01CD0146EA1EADB0" + "]" + "[O00000000]" + "*" + "C:\\Users\\nfury\\StarFury.docx"
    ensures FindAll(s, 0) == [("01CD0146EA1EADB0", "C:\\Users\\nfury\\StarFury.docx")]
  {
    var t, mid, name := "01CD0146EA1EADB0", "[O00000000]", "C:\\Users\\nfury\\StarFury.docx";
    SingleEntry(s, t, mid, name);
  }

  /** The upper-case hexadecimal text of a FILETIME reads back as that FILETIME. */
  lemma FileTimeRoundTrip(n: nat)
    ensures FileTime(NatToHex(n, true)) == n
  {
    PyIntDigits(NatToHex(n, true), 16);
  }

  /** int(_, 16) also takes a "0X" prefix, which the [0-9A-Z] group lets through. */
  lemma FileTimePrefixed(n: nat)
    ensures FileTime("0X" + NatToHex(n, true)) == n
  {
    PyIntHexPrefix(NatToHex(n, true), 'X');
  }

  /** A FILETIME group with a letter beyond F (other than a "0X" prefix) does not convert and counts as 0. */
  lemma FileTimeUnreadable(text: string, k: nat)
    requires k < |text| && 'G' <= text[k] <= 'Z'
    requires !(k == 1 && text[0] == '0')
    requires forall i :: 0 <= i < |text| ==> IsTimeChar(text[i])
    ensures FileTime(text) == 0
  {
    assert !IsSpace(text[0]) && !IsSpace(text[|text| - 1]) && text[0] != '-' && text[0] != '+';
    StripNoSpace(text);
    var d := if |text| >= 2 && text[0] == '0' && (text[1] == 'x' || text[1] == 'X') then text[2..] else text;
    assert !AllDigits(d, 16) by {
      if d == text {
        assert DigitValue(d[k]) >= 16;
      } else {
        assert DigitValue(d[k - 2]) >= 16;
      }
    }
    assert PyInt(text, 16).None?;
  }

  /** The Word File MRU entry of the test hive is at 2012-03-13 18:27:15.083 UTC. */
  lemma TestEntryTime()
    ensures FromFiletime(0x01CD0146EA1EADB0) == 1331663235083000
  {
  }
}
