/**
 * The non-interactive parts of the preg front-end: making a string safe
 * for str.format, adding the 32-bit redirect of software keys, choosing
 * the registry plugins and hive file patterns, guessing a hive's type and
 * the alignment of value names, and grouping a plugin's events by time.
 */
module Preg {
  import opened Common

  // ---------------------------------------------------------------------
  // StripCurlyBrace

  /** str.replace(c, c + c): every c doubled. */
  function Doubled(s: string, c: char): (r: string)
  {
    if s == [] then [] else (if s[0] == c then [c, c] else [s[0]]) + Doubled(s[1..], c)
  }

  /** Every brace of either kind doubled, the rest kept. */
  function BracesDoubled(s: string): string
  {
    if s == [] then [] else (if s[0] == '{' || s[0] == '}' then [s[0], s[0]] else [s[0]]) + BracesDoubled(s[1..])
  }

  /** StripCurlyBrace: '}' doubled, then '{' doubled. */
  function StripCurlyBrace(s: string): (r: string)
    ensures r == BracesDoubled(s)
  {
    DoubledTwice(s);
    Doubled(Doubled(s, '}'), '{')
  }

  /** Doubling '}' and then '{' doubles both. */
  lemma {:induction false} DoubledTwice(s: string)
    ensures Doubled(Doubled(s, '}'), '{') == BracesDoubled(s)
  {
    if s != [] {
      DoubledTwice(s[1..]);
      var head := if s[0] == '}' then ['}', '}'] else [s[0]];
      DoubledConcat(head, Doubled(s[1..], '}'), '{');
    }
  }

  lemma {:induction false} DoubledConcat(a: string, b: string, c: char)
    ensures Doubled(a + b, c) == Doubled(a, c) + Doubled(b, c)
  {
    if a == [] {
      assert a + b == b;
    } else {
      assert (a + b)[0] == a[0] && (a + b)[1..] == a[1..] + b;
      DoubledConcat(a[1..], b, c);
    }
  }

  /** What str.format makes of a string without replacement fields: '{{' gives '{' and '}}' gives '}'. */
  function FormatLiteral(s: string): string
    decreases |s|
  {
    if s == [] then []
    else if |s| >= 2 && (s[0] == '{' || s[0] == '}') && s[1] == s[0] then [s[0]] + FormatLiteral(s[2..])
    else [s[0]] + FormatLiteral(s[1..])
  }

  /** A string made safe formats back to itself. */
  lemma {:induction false} StripCurlyBraceFormats(s: string)
    ensures FormatLiteral(StripCurlyBrace(s)) == s
  {
    if s != [] {
      StripCurlyBraceFormats(s[1..]);
      var t := BracesDoubled(s);
      if s[0] == '{' || s[0] == '}' {
        assert t[2..] == BracesDoubled(s[1..]);
      } else {
        assert t[1..] == BracesDoubled(s[1..]);
      }
    }
  }

  /** Every brace of the safe string sits in a pair: the string has no single brace left to start a field. */
  lemma {:induction false} BracesPaired(s: string)
    ensures |BracesDoubled(s)| == |s| + |BracesIn(s)|
    ensures Lacks(s, '{') && Lacks(s, '}') ==> BracesDoubled(s) == s
  {
    if s != [] {
      BracesPaired(s[1..]);
    }
  }

  /** The braces of s. */
  function BracesIn(s: string): string
  {
    if s == [] then [] else (if s[0] == '{' || s[0] == '}' then [s[0]] else []) + BracesIn(s[1..])
  }

  // ---------------------------------------------------------------------
  // ExpandKeysRedirect

  const SOFTWARE := "\\Software"
  const WOW64 := "Wow6432Node"

  /** The keys that get a redirect: under \Software and not redirected already. */
  predicate Redirected(key: string)
  {
    StartsWith(key, SOFTWARE) && !Contains(key, WOW64)
  }

  /** '{0:s}\\Wow6432Node{1:s}'.format(first, second) of key.partition('\\Software'). */
  function Redirect(key: string): string
  {
    var parts := Partition(key, SOFTWARE);
    parts.1 + "\\" + WOW64 + parts.2
  }

  /** The redirects of some keys, in order. */
  function Redirects(keys: seq<string>): seq<string>
  {
    if keys == [] then []
    else Redirects(keys[..|keys| - 1]) + (if Redirected(keys[|keys| - 1]) then [Redirect(keys[|keys| - 1])] else [])
  }

  /** A key under \Software becomes \Software\Wow6432Node and the rest of the key. */
  lemma RedirectShape(key: string)
    requires StartsWith(key, SOFTWARE)
    ensures Redirect(key) == SOFTWARE + "\\" + WOW64 + key[|SOFTWARE|..]
  {
    assert At(key, SOFTWARE, 0);
    PartitionFirst(key, SOFTWARE, 0);
  }

  /** A redirect contains Wow6432Node, so the loop never redirects it again. */
  lemma RedirectNotRedirected(key: string)
    requires StartsWith(key, SOFTWARE)
    ensures !Redirected(Redirect(key))
  {
    RedirectShape(key);
    var r := Redirect(key);
    assert r[|SOFTWARE| + 1..|SOFTWARE| + 1 + |WOW64|] == WOW64;
    assert At(r, WOW64, |SOFTWARE| + 1);
  }

  /** The redirects of some keys are never redirected themselves. */
  lemma {:induction false} RedirectsFinal(keys: seq<string>)
    ensures forall i :: 0 <= i < |Redirects(keys)| ==> !Redirected(Redirects(keys)[i])
  {
    if keys != [] {
      RedirectsFinal(keys[..|keys| - 1]);
      if Redirected(keys[|keys| - 1]) {
        RedirectNotRedirected(keys[|keys| - 1]);
      }
    }
  }

  /** One key more: its redirect, if it gets one, comes last. */
  lemma RedirectsStep(keys: seq<string>, i: nat)
    requires i < |keys|
    ensures Redirects(keys[..i + 1]) == Redirects(keys[..i]) + (if Redirected(keys[i]) then [Redirect(keys[i])] else [])
  {
    assert keys[..i + 1][..i] == keys[..i];
  }

  lemma {:induction false} RedirectsLength(keys: seq<string>)
    ensures |Redirects(keys)| <= |keys|
  {
    if keys != [] {
      RedirectsLength(keys[..|keys| - 1]);
    }
  }

  /**
   * ExpandKeysRedirect: the loop runs over the list it appends to, so it
   * also visits the appended keys, which being redirects add nothing. The
   * list ends as the keys followed by their redirects, in order.
   */
  method ExpandKeysRedirect(keys: seq<string>) returns (expanded: seq<string>)
    ensures expanded == keys + Redirects(keys)
  {
    expanded := keys;
    RedirectsLength(keys);
    var i := 0;
    while i < |expanded|
      invariant i <= |expanded|
      invariant i <= |keys| ==> expanded == keys + Redirects(keys[..i])
      invariant i > |keys| ==> expanded == keys + Redirects(keys)
      invariant |expanded| <= 2 * |keys|
      decreases 2 * |keys| - i
    {
      var key := expanded[i];
      if i < |keys| {
        assert key == keys[i];
        RedirectsStep(keys, i);
        RedirectsLength(keys[..i + 1]);
      } else {
        if i == |keys| {
          assert keys[..i] == keys;
        }
        RedirectsFinal(keys);
        assert key == Redirects(keys)[i - |keys|];
      }
      if StartsWith(key, SOFTWARE) && !Contains(key, WOW64) {
        var parts := Partition(key, SOFTWARE);
        expanded := expanded + [parts.1 + "\\" + WOW64 + parts.2];
      }
      i := i + 1;
    }
    if i <= |keys| {
      assert keys[..i] == keys;
    }
  }

  // ---------------------------------------------------------------------
  // GetRegistryPlugins

  /** The lower-cased plugin name with 'winreg_' put in front unless it already starts with 'winreg'. */
  function Needle(pluginName: string): (r: string)
    ensures StartsWith(r, "winreg")
  {
    var lower := Lower(pluginName);
    if StartsWith(lower, "winreg") then lower else "winreg_" + lower
  }

  /** The key plugin names that contain the needle, whatever their case. */
  function Matching(names: seq<string>, needle: string): (r: seq<string>)
    ensures |r| <= |names|
  {
    if names == [] then []
    else (if Contains(Lower(names[0]), needle) then [names[0]] else []) + Matching(names[1..], needle)
  }

  /** GetRegistryPlugins: every key plugin without a plugin name, else those whose lower-cased name contains the needle. */
  function GetRegistryPlugins(pluginName: Option<string>, keyPluginNames: seq<string>): seq<string>
  {
    if pluginName.None? || pluginName.value == [] then keyPluginNames
    else Matching(keyPluginNames, Needle(pluginName.value))
  }

  /** A name is chosen exactly when it is a key plugin that contains the needle. */
  lemma {:induction false} MatchingMembers(names: seq<string>, needle: string)
    ensures forall n :: n in Matching(names, needle) <==> n in names && Contains(Lower(n), needle)
  {
    if names != [] {
      MatchingMembers(names[1..], needle);
    }
  }

  /** The chosen names keep the plugins' order: they are a subsequence of the key plugin names. */
  lemma {:induction false} MatchingOrdered(names: seq<string>, needle: string, x: string, y: string)
    requires x in Matching(names, needle) && y in Matching(names, needle) && x != y
    requires forall i, j :: 0 <= i < j < |names| ==> names[i] != names[j]
    ensures Before(Matching(names, needle), x, y) <==> Before(names, x, y)
  {
    var m := Matching(names, needle);
    MatchingMembers(names, needle);
    if names[0] == x {
      MatchingMembers(names[1..], needle);
      assert m[0] == x;
      assert y in names[1..];
    } else if names[0] == y {
      MatchingMembers(names[1..], needle);
      assert m[0] == y;
      assert x in names[1..];
      assert !Before(names, x, y);
      assert !Before(m, x, y);
    } else {
      MatchingMembers(names[1..], needle);
      assert forall k :: 0 <= k < |names| - 1 ==> names[1..][k] == names[k + 1];
      MatchingOrdered(names[1..], needle, x, y);
      BeforeTail(names, x, y);
      var head := if Contains(Lower(names[0]), needle) then [names[0]] else [];
      BeforeConcat(head, Matching(names[1..], needle), x, y);
    }
  }

  /** x occurs in s, first, before any y. */
  predicate Before(s: seq<string>, x: string, y: string)
  {
    exists i :: 0 <= i < |s| && s[i] == x && forall j :: 0 <= j <= i ==> s[j] != y
  }

  lemma BeforeTail(s: seq<string>, x: string, y: string)
    requires s != [] && s[0] != x && s[0] != y
    ensures Before(s, x, y) <==> Before(s[1..], x, y)
  {
    if Before(s, x, y) {
      var i :| 0 <= i < |s| && s[i] == x && forall j :: 0 <= j <= i ==> s[j] != y;
      assert s[1..][i - 1] == x;
      assert forall j :: 0 <= j <= i - 1 ==> s[1..][j] == s[j + 1];
    }
    if Before(s[1..], x, y) {
      var i :| 0 <= i < |s[1..]| && s[1..][i] == x && forall j :: 0 <= j <= i ==> s[1..][j] != y;
      assert s[i + 1] == x;
      assert forall j :: 1 <= j <= i + 1 ==> s[j] == s[1..][j - 1];
    }
  }

  lemma BeforeConcat(h: seq<string>, t: seq<string>, x: string, y: string)
    requires forall k :: 0 <= k < |h| ==> h[k] != x && h[k] != y
    ensures Before(h + t, x, y) <==> Before(t, x, y)
  {
    var s := h + t;
    if Before(s, x, y) {
      var i :| 0 <= i < |s| && s[i] == x && forall j :: 0 <= j <= i ==> s[j] != y;
      assert i >= |h|;
      assert t[i - |h|] == x;
      assert forall j :: 0 <= j <= i - |h| ==> t[j] == s[j + |h|];
    }
    if Before(t, x, y) {
      var i :| 0 <= i < |t| && t[i] == x && forall j :: 0 <= j <= i ==> t[j] != y;
      assert s[i + |h|] == x;
      assert forall j :: |h| <= j <= i + |h| ==> s[j] == t[j - |h|];
    }
  }

  // ---------------------------------------------------------------------
  // GetFormatString

  const DEFAULT_ALIGN := 15

  /** The format string of a given alignment: '{0:>N s} : {1!s}'. */
  function FormatString(align: nat): string
  {
    "{0:>" + IntToStr(align) + "s} : {1!s}"
  }

  /**
   * GetFormatString: the alignment is 15, or the length of the longest
   * value name shorter than 30 characters when that is longer.
   */
  method GetFormatString(names: seq<string>) returns (r: string, align: nat)
    ensures r == FormatString(align)
    ensures DEFAULT_ALIGN <= align < 30
    ensures forall i :: 0 <= i < |names| && |names[i]| < 30 ==> |names[i]| <= align
    ensures align == DEFAULT_ALIGN || exists i :: 0 <= i < |names| && |names[i]| == align
  {
    align := DEFAULT_ALIGN;
    var k := 0;
    while k < |names|
      invariant 0 <= k <= |names|
      invariant DEFAULT_ALIGN <= align < 30
      invariant forall i :: 0 <= i < k && |names[i]| < 30 ==> |names[i]| <= align
      invariant align == DEFAULT_ALIGN || exists i :: 0 <= i < k && |names[i]| == align
    {
      var attributeLen := |names[k]|;
      if attributeLen > align && attributeLen < 30 {
        align := attributeLen;
      }
      k := k + 1;
    }
    r := "{0:>" + IntToStr(align) + "s} : {1!s}";
  }

  /** The needle depends only on the lower-cased name: the choice ignores the case of the requested name. */
  lemma NeedleIgnoresCase(pluginName: string)
    ensures Needle(Lower(pluginName)) == Needle(pluginName)
  {
    assert Lower(Lower(pluginName)) == Lower(pluginName);
  }

  // ---------------------------------------------------------------------
  // GetRegistryFilePaths

  const RESTORE_PATH := "/System Volume Information/" + "_restor.+/RP[0-9]+/snapshot/"

  /** The patterns of one registry type; the restore-point pattern only when restore is set. */
  function TypePaths(regType: string, restore: bool): (r: seq<string>)
    ensures |r| <= 3
  {
    var restorePath := if restore then RESTORE_PATH else "";
    if regType == "NTUSER" then
      ["/Documents And Settings/.+/NTUSER.DAT", "/Users/.+/NTUSER.DAT"] +
      (if restorePath != [] then [restorePath + "/_REGISTRY_USER_NTUSER.+"] else [])
    else if regType == "SOFTWARE" then
      ["{sysregistry}/SOFTWARE"] + (if restorePath != [] then [restorePath + "/_REGISTRY_MACHINE_SOFTWARE"] else [])
    else if regType == "SYSTEM" then
      ["{sysregistry}/SYSTEM"] + (if restorePath != [] then [restorePath + "/_REGISTRY_MACHINE_SYSTEM"] else [])
    else if regType == "SECURITY" then
      ["{sysregistry}/SECURITY"] + (if restorePath != [] then [restorePath + "/_REGISTRY_MACHINE_SECURITY"] else [])
    else if regType == "SAM" then
      ["{sysregistry}/SAM"] + (if restorePath != [] then [restorePath + "/_REGISTRY_MACHINE_SAM"] else [])
    else []
  }

  /** The patterns of some types, in order. */
  function AllPaths(types: seq<string>, restore: bool): seq<string>
  {
    if types == [] then [] else AllPaths(types[..|types| - 1], restore) + TypePaths(types[|types| - 1], restore)
  }

  /** map(expander.ExpandPath, paths): every path expanded, or the first KeyError. */
  function ExpandAll(paths: seq<string>, expand: string -> Result<string>): (r: Result<seq<string>>)
    ensures r.Ok? ==> |r.value| == |paths|
  {
    if paths == [] then Ok([])
    else match ExpandAll(paths[..|paths| - 1], expand)
      case Err(x) => Err(x)
      case Ok(done) =>
        match expand(paths[|paths| - 1])
        case Err(x) => Err(x)
        case Ok(p) => Ok(done + [p])
  }

  /**
   * GetRegistryFilePaths: the patterns of the requested type, or of every
   * type the plugins give when none is requested, each expanded; when an
   * expansion raises KeyError the patterns are returned unexpanded.
   */
  method GetRegistryFilePaths(restorePoints: bool, registryType: Option<string>, pluginTypes: seq<string>,
                              expand: string -> Result<string>) returns (paths: seq<string>)
    ensures var types := if registryType.Some? && registryType.value != [] then [registryType.value] else pluginTypes;
      var patterns := AllPaths(types, restorePoints);
      paths == if ExpandAll(patterns, expand).Ok? then ExpandAll(patterns, expand).value else patterns
  {
    var types := if registryType.Some? && registryType.value != [] then [registryType.value] else pluginTypes;
    var patterns := Patterns(types, restorePoints);
    var expanded := ExpandAll(patterns, expand);
    paths := if expanded.Ok? then expanded.value else patterns;
  }

  /** The loop of GetRegistryFilePaths: the patterns of every type, in order. */
  method Patterns(types: seq<string>, restorePoints: bool) returns (patterns: seq<string>)
    ensures patterns == AllPaths(types, restorePoints)
  {
    patterns := [];
    var i := 0;
    while i < |types|
      invariant 0 <= i <= |types|
      invariant patterns == AllPaths(types[..i], restorePoints)
    {
      assert types[..i + 1][..i] == types[..i];
      patterns := patterns + TypePaths(types[i], restorePoints);
      i := i + 1;
    }
    assert types[..i] == types;
  }

  /** Restore points add exactly one pattern to each known type, at its end, under the restore-point directory. */
  lemma RestorePattern(regType: string)
    requires regType in ["NTUSER", "SOFTWARE", "SYSTEM", "SECURITY", "SAM"]
    ensures |TypePaths(regType, true)| == |TypePaths(regType, false)| + 1
    ensures TypePaths(regType, true)[..|TypePaths(regType, false)|] == TypePaths(regType, false)
    ensures StartsWith(TypePaths(regType, true)[|TypePaths(regType, false)|], RESTORE_PATH)
  {
  }

  /** Without restore points no pattern is under the restore-point directory, since none starts with it. */
  lemma {:induction false} NoRestoreWithout(types: seq<string>)
    ensures forall i :: 0 <= i < |AllPaths(types, false)| ==> !StartsWith(AllPaths(types, false)[i], RESTORE_PATH)
  {
    if types != [] {
      NoRestoreWithout(types[..|types| - 1]);
      var t := TypePaths(types[|types| - 1], false);
      forall i | 0 <= i < |t| ensures !StartsWith(t[i], RESTORE_PATH) {
        NotUnderRestore(t[i]);
      }
    }
  }

  /** The patterns without restore points: none begins "/S", as the restore-point directory does. */
  lemma NotUnderRestore(p: string)
    requires p != [] && (p[0] == '{' || (|p| > 1 && (p[1] == 'D' || p[1] == 'U')))
    ensures !StartsWith(p, RESTORE_PATH)
  {
    assert RESTORE_PATH[0] == '/' && RESTORE_PATH[1] == 'S';
  }

  /** Types other than the five known ones give no pattern. */
  lemma UnknownTypeNoPaths(regType: string, restore: bool)
    requires regType !in ["NTUSER", "SOFTWARE", "SYSTEM", "SECURITY", "SAM"]
    ensures TypePaths(regType, restore) == []
  {
  }

  /** When one expansion fails, the whole result is the failure. */
  lemma {:induction false} ExpandFailure(paths: seq<string>, expand: string -> Result<string>, k: nat)
    requires k < |paths| && expand(paths[k]).Err?
    ensures ExpandAll(paths, expand).Err?
  {
    var prefix := paths[..|paths| - 1];
    if k < |prefix| {
      assert prefix[k] == paths[k];
      ExpandFailure(prefix, expand, k);
    }
  }

  /** When every expansion succeeds, the result is each pattern's expansion, in order. */
  lemma {:induction false} ExpandSuccess(paths: seq<string>, expand: string -> Result<string>)
    requires forall i :: 0 <= i < |paths| ==> expand(paths[i]).Ok?
    ensures ExpandAll(paths, expand).Ok?
    ensures forall i :: 0 <= i < |paths| ==> ExpandAll(paths, expand).value[i] == expand(paths[i]).value
  {
    if paths != [] {
      var prefix := paths[..|paths| - 1];
      assert forall i :: 0 <= i < |prefix| ==> prefix[i] == paths[i];
      ExpandSuccess(prefix, expand);
    }
  }

  // ---------------------------------------------------------------------
  // RegCache.SetHiveType

  /** REG_TYPES: each hive type with the keys that mark it, in the order the model iterates them. */
  const REG_TYPES: seq<(string, seq<string>)> := [
    ("NTUSER", ["\\Software\\Microsoft\\Windows\\CurrentVersion\\Explorer"]),
    ("SOFTWARE", ["\\Microsoft\\Windows\\CurrentVersion\\App Paths"]),
    ("SECURITY", ["\\Policy\\PolAdtEv"]),
    ("SYSTEM", ["\\Select"]),
    ("SAM", ["\\SAM\\Domains\\Account\\Users"]),
    ("UNKNOWN", [])]

  /** Every marker key is in the hive. */
  predicate AllPresent(hive: set<string>, keys: seq<string>)
  {
    forall k :: 0 <= k < |keys| ==> keys[k] in hive
  }

  /** The first type other than UNKNOWN whose marker keys are all present, else UNKNOWN. */
  function HiveTypeOf(hive: set<string>, types: seq<(string, seq<string>)>): string
  {
    if types == [] then "UNKNOWN"
    else if types[0].0 != "UNKNOWN" && AllPresent(hive, types[0].1) then types[0].0
    else HiveTypeOf(hive, types[1..])
  }

  /** The cached hive, as the set of key paths GetKeyByPath finds, and its guessed type. */
  class RegCache {
    var hive: set<string>
    var hiveType: string

    constructor(hive: set<string>)
      ensures this.hive == hive && hiveType == "UNKNOWN"
    {
      this.hive := hive;
      hiveType := "UNKNOWN";
    }

    /** SetHiveType: the first type, UNKNOWN skipped, all of whose keys the hive has. */
    method SetHiveType()
      modifies this
      ensures hive == old(hive)
      ensures hiveType == HiveTypeOf(hive, REG_TYPES)
    {
      var registryType := HiveTypeFrom(hive, REG_TYPES);
      hiveType := registryType;
    }

    /** The loop of SetHiveType over any table of types. */
    static method HiveTypeFrom(hive: set<string>, types: seq<(string, seq<string>)>) returns (registryType: string)
      ensures registryType == HiveTypeOf(hive, types)
    {
      registryType := "UNKNOWN";
      var i := 0;
      while i < |types|
        invariant 0 <= i <= |types|
        invariant HiveTypeOf(hive, types) == HiveTypeOf(hive, types[i..])
      {
        assert types[i..][0] == types[i] && types[i..][1..] == types[i + 1..];
        if types[i].0 == "UNKNOWN" {
          i := i + 1;
          continue;
        }
        var found := Found(hive, types[i].1);
        if found {
          registryType := types[i].0;
          return;
        }
        i := i + 1;
      }
    }

    /** The inner loop: whether GetKeyByPath finds every marker key, stopping at the first it does not. */
    static method Found(hive: set<string>, keys: seq<string>) returns (found: bool)
      ensures found <==> AllPresent(hive, keys)
    {
      found := true;
      var k := 0;
      while k < |keys|
        invariant 0 <= k <= |keys|
        invariant forall j :: 0 <= j < k ==> keys[j] in hive
      {
        if keys[k] !in hive {
          found := false;
          break;
        }
        k := k + 1;
      }
    }
  }

  /** The type is UNKNOWN exactly when no type other than UNKNOWN has all its keys in the hive. */
  lemma {:induction false} UnknownIff(hive: set<string>, types: seq<(string, seq<string>)>)
    ensures HiveTypeOf(hive, types) == "UNKNOWN" <==>
      forall i :: 0 <= i < |types| && types[i].0 != "UNKNOWN" ==> !AllPresent(hive, types[i].1)
  {
    if types != [] {
      UnknownIff(hive, types[1..]);
      assert forall i :: 1 <= i < |types| ==> types[i] == types[1..][i - 1];
    }
  }

  /** Any other type it guesses is one whose marker keys are all present. */
  lemma {:induction false} GuessedPresent(hive: set<string>, types: seq<(string, seq<string>)>)
    requires HiveTypeOf(hive, types) != "UNKNOWN"
    ensures exists i :: 0 <= i < |types| && types[i].0 == HiveTypeOf(hive, types) && AllPresent(hive, types[i].1)
  {
    if !(types[0].0 != "UNKNOWN" && AllPresent(hive, types[0].1)) {
      GuessedPresent(hive, types[1..]);
      var i :| 0 <= i < |types[1..]| && types[1..][i].0 == HiveTypeOf(hive, types[1..]) && AllPresent(hive, types[1..][i].1);
      assert types[i + 1] == types[1..][i];
    }
  }

  /** For the table as written: UNKNOWN exactly when no marker key set is complete, else a type whose keys are all there. */
  lemma HiveTypeGuess(hive: set<string>)
    ensures HiveTypeOf(hive, REG_TYPES) == "UNKNOWN" <==>
      forall i :: 0 <= i < |REG_TYPES| && REG_TYPES[i].0 != "UNKNOWN" ==> !AllPresent(hive, REG_TYPES[i].1)
    ensures HiveTypeOf(hive, REG_TYPES) != "UNKNOWN" ==>
      exists i :: 0 <= i < |REG_TYPES| && REG_TYPES[i].0 == HiveTypeOf(hive, REG_TYPES) && AllPresent(hive, REG_TYPES[i].1)
  {
    UnknownIff(hive, REG_TYPES);
    if HiveTypeOf(hive, REG_TYPES) != "UNKNOWN" {
      GuessedPresent(hive, REG_TYPES);
    }
  }

  // ---------------------------------------------------------------------
  // ParseKey: one plugin's events, grouped by timestamp

  /**
   * The lines of one plugin's events: the header of the first event (with
   * its timestamp unless there are several), a blank line and an ISO time
   * line before each group when there are several timestamps, the body of
   * each event, and a closing blank line. GetEventHeader, GetEventBody and
   * CopyToIsoFormat render these; their text is not part of this model.
   */
  datatype Printed<E> = Header(first: Timed<E>, excludeTimestamp: bool) | Blank | TimeLine(timestamp: int) | Body(event: Timed<E>)

  /** An event with its timestamp. */
  datatype Timed<E> = Timed(timestamp: int, event: E)

  /** s is in strictly ascending order. */
  predicate Increasing(s: seq<int>)
  {
    forall i, j :: 0 <= i < j < |s| ==> s[i] < s[j]
  }

  /** x put into its place in an ascending sequence, unless it is there already. */
  function Insert(x: int, s: seq<int>): (r: seq<int>)
    requires Increasing(s)
    ensures Increasing(r)
    ensures forall y :: y in r <==> y == x || y in s
  {
    if s == [] then [x]
    else if x < s[0] then
      assert forall j :: 0 <= j < |s| ==> x < s[j];
      ConsIncreasing(x, s);
      [x] + s
    else if x == s[0] then s
    else
      var rest := Insert(x, s[1..]);
      assert forall j :: 0 <= j < |s[1..]| ==> s[0] < s[1..][j];
      assert forall y :: y in rest ==> s[0] < y;
      ConsIncreasing(s[0], rest);
      [s[0]] + rest
  }

  /** A value below every element of an ascending sequence can go in front of it. */
  lemma ConsIncreasing(h: int, s: seq<int>)
    requires Increasing(s) && forall y :: y in s ==> h < y
    ensures Increasing([h] + s)
  {
    forall i, j | 0 <= i < j < |[h] + s|
      ensures ([h] + s)[i] < ([h] + s)[j]
    {
      assert ([h] + s)[j] == s[j - 1];
      if i > 0 {
        assert ([h] + s)[i] == s[i - 1];
      } else {
        assert s[j - 1] in s;
      }
    }
  }

  /** sorted(set(ts)): the distinct values in ascending order. */
  function Ascending(ts: seq<int>): (r: seq<int>)
    ensures Increasing(r)
    ensures forall y :: y in r <==> y in ts
  {
    if ts == [] then [] else Insert(ts[|ts| - 1], Ascending(ts[..|ts| - 1]))
  }

  /** The timestamps of the events, in order. */
  function Timestamps<E>(events: seq<Timed<E>>): (r: seq<int>)
    ensures |r| == |events|
    ensures forall i :: 0 <= i < |events| ==> r[i] == events[i].timestamp
  {
    seq(|events|, i requires 0 <= i < |events| => events[i].timestamp)
  }

  /** The events at one timestamp, in their order. */
  function GroupOf<E>(events: seq<Timed<E>>, t: int): (r: seq<Timed<E>>)
    ensures r != [] <==> t in Timestamps(events)
  {
    if events == [] then []
    else
      var prefix := events[..|events| - 1];
      assert Timestamps(events) == Timestamps(prefix) + [events[|events| - 1].timestamp];
      GroupOf(prefix, t) + (if events[|events| - 1].timestamp == t then [events[|events| - 1]] else [])
  }

  /** The dictionary the setdefault loop builds: each timestamp to its events, in order. */
  function Grouping<E>(events: seq<Timed<E>>): map<int, seq<Timed<E>>>
  {
    if events == [] then map[]
    else
      var g := Grouping(events[..|events| - 1]);
      var e := events[|events| - 1];
      g[e.timestamp := (if e.timestamp in g then g[e.timestamp] else []) + [e]]
  }

  /** The bodies of some events. */
  function Bodies<E>(events: seq<Timed<E>>): (r: seq<Printed<E>>)
    ensures |r| == |events|
  {
    seq(|events|, i requires 0 <= i < |events| => Body(events[i]))
  }

  /** The lines of one group: its time line when there are several timestamps, then its bodies. */
  function GroupLines<E>(events: seq<Timed<E>>, t: int, exclude: bool): seq<Printed<E>>
  {
    (if exclude then [Blank, TimeLine(t)] else []) + Bodies(GroupOf(events, t))
  }

  /** The lines of the groups at the given timestamps, in that order. */
  function GroupsLines<E>(events: seq<Timed<E>>, order: seq<int>, exclude: bool): seq<Printed<E>>
  {
    if order == [] then []
    else GroupsLines(events, order[..|order| - 1], exclude) + GroupLines(events, order[|order| - 1], exclude)
  }

  /** One group more. */
  lemma GroupsLinesStep<E>(events: seq<Timed<E>>, order: seq<int>, k: nat, exclude: bool)
    requires k < |order|
    ensures GroupsLines(events, order[..k + 1], exclude) ==
      GroupsLines(events, order[..k], exclude) + GroupLines(events, order[k], exclude)
  {
    assert order[..k + 1][..k] == order[..k];
  }

  /** The lines of the groups in the given order, with the header of the first and the closing blank line. */
  function PluginLines<E>(events: seq<Timed<E>>, order: seq<int>): seq<Printed<E>>
    requires order != [] && GroupOf(events, order[0]) != []
  {
    var exclude := |order| > 1;
    [Header(GroupOf(events, order[0])[0], exclude)] + GroupsLines(events, order, exclude) + [Blank]
  }

  /** What ParseKey prints for one plugin's events; nothing at all when there are none. */
  function EventLines<E>(events: seq<Timed<E>>): seq<Printed<E>>
  {
    if events == [] then []
    else
      var order := Ascending(Timestamps(events));
      assert events[0].timestamp in order;
      PluginLines(events, order)
  }

  /** The setdefault loop's dictionary maps exactly the events' timestamps, each to its group. */
  lemma {:induction false} GroupingGroups<E>(events: seq<Timed<E>>)
    ensures forall t :: t in Grouping(events) <==> t in Timestamps(events)
    ensures forall t :: t in Grouping(events) ==> Grouping(events)[t] == GroupOf(events, t)
  {
    if events != [] {
      var prefix := events[..|events| - 1];
      GroupingGroups(prefix);
      assert Timestamps(events) == Timestamps(prefix) + [events[|events| - 1].timestamp];
    }
  }

  /** A strictly ascending sequence has as many elements as its set. */
  lemma {:induction false} DistinctCount(s: seq<int>)
    requires Increasing(s)
    ensures |set x | x in s| == |s|
  {
    if s != [] {
      var p := s[..|s| - 1];
      DistinctCount(p);
      assert (set x | x in s) == (set x | x in p) + {s[|s| - 1]};
      assert s[|s| - 1] !in p;
    }
  }

  /** As many groups as distinct timestamps. */
  lemma GroupCount<E>(events: seq<Timed<E>>)
    ensures |Grouping(events)| == |Ascending(Timestamps(events))|
  {
    GroupingGroups(events);
    var order := Ascending(Timestamps(events));
    DistinctCount(order);
    assert Grouping(events).Keys == set x | x in order;
  }

  /** There are no groups exactly when there are no events. */
  lemma NoGroups<E>(events: seq<Timed<E>>)
    ensures |Grouping(events)| == 0 <==> events == []
  {
    if events != [] {
      GroupingGroups(events);
      assert events[0].timestamp in Timestamps(events);
      assert events[0].timestamp in Grouping(events);
    }
  }

  /** ParseKey's grouping of one plugin's events: the setdefault loop, then the groups in ascending time. */
  method ParseKeyEvents<E>(events: seq<Timed<E>>) returns (lines: seq<Printed<E>>)
    ensures lines == EventLines(events)
  {
    var groups: map<int, seq<Timed<E>>> := map[];
    var i := 0;
    while i < |events|
      invariant 0 <= i <= |events|
      invariant groups == Grouping(events[..i])
    {
      assert events[..i + 1][..i] == events[..i];
      var t := events[i].timestamp;
      groups := groups[t := (if t in groups then groups[t] else []) + [events[i]]];
      i := i + 1;
    }
    assert events[..i] == events;
    NoGroups(events);
    if |groups| == 0 {
      return [];
    }
    GroupCount(events);
    GroupingGroups(events);
    var order := Ascending(Timestamps(events));
    var exclude := |groups| > 1;
    lines := GroupLinesOf(events, groups, order, exclude);
  }

  /** The loop over sorted(event_objects_and_timestamps). */
  method GroupLinesOf<E>(events: seq<Timed<E>>, groups: map<int, seq<Timed<E>>>, order: seq<int>, exclude: bool)
    returns (lines: seq<Printed<E>>)
    requires order != [] && exclude == (|order| > 1)
    requires forall k :: 0 <= k < |order| ==> order[k] in groups && groups[order[k]] == GroupOf(events, order[k])
    requires GroupOf(events, order[0]) != []
    ensures lines == PluginLines(events, order)
  {
    lines := [];
    var head := Header(groups[order[0]][0], exclude);
    var first := true;
    var k := 0;
    while k < |order|
      invariant 0 <= k <= |order|
      invariant first <==> k == 0
      invariant k == 0 ==> lines == []
      invariant k > 0 ==> lines == [head] + GroupsLines(events, order[..k], exclude)
    {
      var t := order[k];
      GroupsLinesStep(events, order, k, exclude);
      ghost var before := GroupsLines(events, order[..k], exclude);
      if first {
        lines := [head];
        first := false;
        assert order[..0] == [];
        assert before == [];
      }
      assert lines == [head] + before;
      var bodies := BodiesOf(groups[t]);
      var part := (if exclude then [Blank, TimeLine(t)] else []) + bodies;
      assert part == GroupLines(events, t, exclude);
      assert GroupsLines(events, order[..k + 1], exclude) == before + part;
      Associative(lines, part, head, before);
      lines := lines + part;
      k := k + 1;
    }
    assert order[..k] == order;
    lines := lines + [Blank];
  }

  /** Appending to a line list that starts with its header. */
  lemma Associative<T>(lines: seq<T>, part: seq<T>, head: T, before: seq<T>)
    requires lines == [head] + before
    ensures lines + part == [head] + (before + part)
  {
  }

  /** The innermost loop: GetEventBody of every event of a group, in order. */
  method BodiesOf<E>(group: seq<Timed<E>>) returns (lines: seq<Printed<E>>)
    ensures lines == Bodies(group)
  {
    lines := [];
    var i := 0;
    while i < |group|
      invariant 0 <= i <= |group|
      invariant lines == Bodies(group[..i])
    {
      assert Bodies(group[..i + 1]) == Bodies(group[..i]) + [Body(group[i])];
      lines := lines + [Body(group[i])];
      i := i + 1;
    }
    assert group[..i] == group;
  }

  /** The events the body lines print, in order. */
  function BodyEvents<E>(lines: seq<Printed<E>>): seq<Timed<E>>
  {
    if lines == [] then []
    else BodyEvents(lines[..|lines| - 1]) + (if lines[|lines| - 1].Body? then [lines[|lines| - 1].event] else [])
  }

  /** The time lines, in order. */
  function TimeLines<E>(lines: seq<Printed<E>>): seq<int>
  {
    if lines == [] then []
    else TimeLines(lines[..|lines| - 1]) + (if lines[|lines| - 1].TimeLine? then [lines[|lines| - 1].timestamp] else [])
  }

  /** The groups at the given timestamps, one after the other. */
  function GroupsConcat<E>(events: seq<Timed<E>>, order: seq<int>): seq<Timed<E>>
  {
    if order == [] then [] else GroupsConcat(events, order[..|order| - 1]) + GroupOf(events, order[|order| - 1])
  }

  lemma {:induction false} LinesConcat<E>(a: seq<Printed<E>>, b: seq<Printed<E>>)
    ensures BodyEvents(a + b) == BodyEvents(a) + BodyEvents(b)
    ensures TimeLines(a + b) == TimeLines(a) + TimeLines(b)
    decreases |b|
  {
    if b == [] {
      assert a + b == a;
    } else {
      assert (a + b)[..|a + b| - 1] == a + b[..|b| - 1];
      LinesConcat(a, b[..|b| - 1]);
    }
  }

  lemma {:induction false} BodiesLines<E>(g: seq<Timed<E>>)
    ensures BodyEvents(Bodies(g)) == g && TimeLines(Bodies(g)) == []
  {
    if g != [] {
      var p := g[..|g| - 1];
      BodiesLines(p);
      assert Bodies(g)[..|g| - 1] == Bodies(p);
    }
  }

  lemma OneLine<E>(x: Printed<E>)
    ensures BodyEvents([x]) == if x.Body? then [x.event] else []
    ensures TimeLines([x]) == if x.TimeLine? then [x.timestamp] else []
  {
    var l := [x];
    assert l[..0] == [];
  }

  /** The lines of one group: its events as bodies, after its time line when shown. */
  lemma GroupContent<E>(events: seq<Timed<E>>, t: int, exclude: bool)
    ensures BodyEvents(GroupLines(events, t, exclude)) == GroupOf(events, t)
    ensures TimeLines(GroupLines(events, t, exclude)) == if exclude then [t] else []
  {
    var g := Bodies(GroupOf(events, t));
    var lead: seq<Printed<E>> := if exclude then [Blank, TimeLine(t)] else [];
    assert GroupLines(events, t, exclude) == lead + g;
    LeadContent(lead, t, exclude);
    BodiesLines(GroupOf(events, t));
    LinesConcat(lead, g);
  }

  lemma LeadContent<E>(lead: seq<Printed<E>>, t: int, exclude: bool)
    requires lead == if exclude then [Blank, TimeLine(t)] else []
    ensures BodyEvents(lead) == [] && TimeLines(lead) == if exclude then [t] else []
  {
    if exclude {
      var b: seq<Printed<E>> := [Blank];
      var c: seq<Printed<E>> := [TimeLine(t)];
      assert lead == b + c;
      OneLine<E>(Blank);
      OneLine<E>(TimeLine(t));
      LinesConcat(b, c);
    }
  }

  /** The bodies of the group lines are the groups in order, and their time lines are the timestamps when shown. */
  lemma GroupsLinesContent<E>(events: seq<Timed<E>>, order: seq<int>, exclude: bool)
    ensures BodyEvents(GroupsLines(events, order, exclude)) == GroupsConcat(events, order)
    ensures TimeLines(GroupsLines(events, order, exclude)) == if exclude then order else []
  {
    GroupsLinesBodies(events, order, exclude);
    GroupsLinesTimes(events, order, exclude);
  }

  lemma {:induction false} GroupsLinesBodies<E>(events: seq<Timed<E>>, order: seq<int>, exclude: bool)
    ensures BodyEvents(GroupsLines(events, order, exclude)) == GroupsConcat(events, order)
  {
    if order != [] {
      var p := order[..|order| - 1];
      var t := order[|order| - 1];
      GroupsLinesBodies(events, p, exclude);
      GroupContent(events, t, exclude);
      LinesConcat(GroupsLines(events, p, exclude), GroupLines(events, t, exclude));
    }
  }

  lemma {:induction false} GroupsLinesTimes<E>(events: seq<Timed<E>>, order: seq<int>, exclude: bool)
    ensures TimeLines(GroupsLines(events, order, exclude)) == if exclude then order else []
  {
    if order != [] {
      var p := order[..|order| - 1];
      var t := order[|order| - 1];
      assert order == p + [t];
      GroupsLinesTimes(events, p, exclude);
      GroupContent(events, t, exclude);
      TimesSnoc(GroupsLines(events, p, exclude), GroupLines(events, t, exclude), p, t, exclude);
    }
  }

  /** The time-line step of GroupsLinesTimes, on plain sequences. */
  lemma TimesSnoc<E>(before: seq<Printed<E>>, last: seq<Printed<E>>, p: seq<int>, t: int, exclude: bool)
    requires TimeLines(before) == (if exclude then p else []) && TimeLines(last) == if exclude then [t] else []
    ensures TimeLines(before + last) == if exclude then p + [t] else []
  {
    LinesConcat(before, last);
  }

  /** The lines of one plugin: its header and final blank line add no body and no time line. */
  lemma PluginContent<E>(events: seq<Timed<E>>, order: seq<int>)
    requires order != [] && GroupOf(events, order[0]) != []
    ensures BodyEvents(PluginLines(events, order)) == GroupsConcat(events, order)
    ensures TimeLines(PluginLines(events, order)) == if |order| > 1 then order else []
  {
    var exclude := |order| > 1;
    GroupsLinesContent(events, order, exclude);
    Framed(GroupOf(events, order[0])[0], exclude, GroupsLines(events, order, exclude));
  }

  lemma Framed<E>(first: Timed<E>, exclude: bool, g: seq<Printed<E>>)
    ensures BodyEvents([Header(first, exclude)] + g + [Blank]) == BodyEvents(g)
    ensures TimeLines([Header(first, exclude)] + g + [Blank]) == TimeLines(g)
  {
    var h: seq<Printed<E>> := [Header(first, exclude)];
    var b: seq<Printed<E>> := [Blank];
    OneLine(h[0]);
    OneLine<E>(Blank);
    LinesConcat(h, g);
    LinesConcat(h + g, b);
  }

  /** One event more joins the group of its own timestamp only. */
  lemma GroupOfSnoc<E>(events: seq<Timed<E>>, e: Timed<E>, t: int)
    ensures GroupOf(events + [e], t) == GroupOf(events, t) + (if e.timestamp == t then [e] else [])
  {
    assert (events + [e])[..|events + [e]| - 1] == events;
  }

  /** One event more: it joins the group of its own timestamp. */
  lemma {:induction false} GroupsConcatGrows<E>(events: seq<Timed<E>>, e: Timed<E>, order: seq<int>)
    requires forall i, j :: 0 <= i < j < |order| ==> order[i] != order[j]
    ensures multiset(GroupsConcat(events + [e], order)) ==
      multiset(GroupsConcat(events, order)) + (if e.timestamp in order then multiset{e} else multiset{})
  {
    if order != [] {
      var p := order[..|order| - 1];
      var t := order[|order| - 1];
      var x := if e.timestamp == t then [e] else [];
      GroupsConcatGrows(events, e, p);
      GroupOfSnoc(events, e, t);
      LastNotEarlier(order);
      SnocStep(GroupsConcat(events + [e], p), GroupsConcat(events, p), GroupOf(events, t), x,
               if e.timestamp in p then multiset{e} else multiset{});
      assert (if e.timestamp in order then multiset{e} else multiset{}) ==
        (if e.timestamp in p then multiset{e} else multiset{}) + multiset(x);
    }
  }

  /** In a duplicate-free order the last timestamp does not occur before it. */
  lemma LastNotEarlier(order: seq<int>)
    requires order != [] && forall i, j :: 0 <= i < j < |order| ==> order[i] != order[j]
    ensures order == order[..|order| - 1] + [order[|order| - 1]] && order[|order| - 1] !in order[..|order| - 1]
  {
    var p := order[..|order| - 1];
    assert forall i :: 0 <= i < |p| ==> p[i] == order[i] && order[i] != order[|order| - 1];
  }

  /** The multiset step of the induction, on plain sequences. */
  lemma SnocStep<T>(a1: seq<T>, a0: seq<T>, b0: seq<T>, x: seq<T>, m: multiset<T>)
    requires multiset(a1) == multiset(a0) + m
    ensures multiset(a1 + (b0 + x)) == multiset(a0 + b0) + (m + multiset(x))
  {
  }

  /** With every timestamp in a duplicate-free order, the groups hold every event exactly once. */
  lemma {:induction false} GroupsPermute<E>(events: seq<Timed<E>>, order: seq<int>)
    requires forall i, j :: 0 <= i < j < |order| ==> order[i] != order[j]
    requires forall i :: 0 <= i < |events| ==> events[i].timestamp in order
    ensures multiset(GroupsConcat(events, order)) == multiset(events)
  {
    if events == [] {
      EmptyGroups<E>(order);
    } else {
      var p := events[..|events| - 1];
      var last := events[|events| - 1];
      assert events == p + [last];
      assert last.timestamp in order;
      GroupsPermute(p, order);
      GroupsConcatGrows(p, last, order);
      PermuteStep(GroupsConcat(events, order), GroupsConcat(p, order), p, last);
    }
  }

  /** The multiset step of GroupsPermute, on plain sequences. */
  lemma PermuteStep<T>(grown: seq<T>, groups: seq<T>, p: seq<T>, last: T)
    requires multiset(grown) == multiset(groups) + multiset{last} && multiset(groups) == multiset(p)
    ensures multiset(grown) == multiset(p + [last])
  {
  }

  lemma {:induction false} EmptyGroups<E>(order: seq<int>)
    ensures GroupsConcat<E>([], order) == []
  {
    if order != [] {
      EmptyGroups<E>(order[..|order| - 1]);
    }
  }

  /**
   * ParseKey prints every event exactly once, grouped by timestamp in
   * ascending order, each group in the order the plugin produced it; a
   * time line opens each group exactly when there are several timestamps,
   * and the header says so.
   */
  lemma EventLinesShape<E>(events: seq<Timed<E>>)
    requires events != []
    ensures var order := Ascending(Timestamps(events));
      var lines := EventLines(events);
      BodyEvents(lines) == GroupsConcat(events, order) &&
      multiset(BodyEvents(lines)) == multiset(events) &&
      TimeLines(lines) == (if |order| > 1 then order else []) &&
      lines[0].Header? && (lines[0].excludeTimestamp <==> |order| > 1)
  {
    var order := Ascending(Timestamps(events));
    assert events[0].timestamp in order;
    assert order[0] in Timestamps(events);
    var lines := PluginLines(events, order);
    assert EventLines(events) == lines;
    assert lines[0] == Header(GroupOf(events, order[0])[0], |order| > 1);
    PluginContent(events, order);
    assert forall i, j :: 0 <= i < j < |order| ==> order[i] != order[j];
    assert forall i :: 0 <= i < |events| ==> events[i].timestamp in Timestamps(events);
    GroupsPermute(events, order);
  }

  /** Several groups exactly when two events have different timestamps. */
  lemma SeveralTimestamps<E>(events: seq<Timed<E>>)
    ensures |Ascending(Timestamps(events))| > 1 <==>
      exists i, j :: 0 <= i < |events| && 0 <= j < |events| && events[i].timestamp != events[j].timestamp
  {
    var order := Ascending(Timestamps(events));
    var ts := Timestamps(events);
    if |order| > 1 {
      assert order[0] in ts && order[1] in ts && order[0] < order[1];
      var i :| 0 <= i < |ts| && ts[i] == order[0];
      var j :| 0 <= j < |ts| && ts[j] == order[1];
      assert events[i].timestamp != events[j].timestamp;
    }
    if exists i, j :: 0 <= i < |events| && 0 <= j < |events| && events[i].timestamp != events[j].timestamp {
      var i, j :| 0 <= i < |events| && 0 <= j < |events| && events[i].timestamp != events[j].timestamp;
      assert ts[i] in order && ts[j] in order;
    }
  }
}
