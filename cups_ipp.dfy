/**
 * The CUPS IPP control-file parser (plaso/parsers/cups_ipp.py): an 8-byte
 * header, then (name, value) attribute pairs read one at a time from a file
 * cursor into a dictionary of lists, then up to three events built from
 * that dictionary.
 */
module CupsIpp {
  import opened Common
  import Timelib

  const IPP_MAJOR_VERSION: int := 2
  const IPP_MINOR_VERSION: int := 0
  const IPP_OP_ID: int := 5
  const HEADER_SIZE: nat := 8

  /** The group id that ends the attributes. */
  const GROUP_END: int := 3
  /** The group ids: the tag follows in the next byte. */
  const GROUP_LIST: set<int> := {1, 2, 4, 5, 6, 7}

  const TYPE_GENERAL_INTEGER: int := 32
  const TYPE_INTEGER: int := 33
  const TYPE_BOOL: int := 34
  const TYPE_ENUMERATION: int := 35

  datatype IppValue = IInt(i: int) | IBool(b: bool) | IText(s: string)

  type Pair = (string, IppValue)

  datatype Header = Header(majorVersion: int, minorVersion: int, operationId: int, requestId: int)

  /**
   * CUPS_IPP_HEADER: major and minor version bytes, a big-endian 16-bit
   * operation id and a 32-bit request id. A short header or a version other
   * than 2.0 is UnableToParseFile; another operation id is only a warning.
   */
  function ParseHeader(data: seq<byte>): (r: Result<Header>)
    ensures r.Ok? <==> |data| >= HEADER_SIZE && data[0] == IPP_MAJOR_VERSION && data[1] == IPP_MINOR_VERSION
    ensures r.Err? ==> r.exc == UnableToParseFile
    ensures r.Ok? ==> r.value.operationId == BE(data[2..4]) && r.value.requestId == BE(data[4..8])
  {
    if |data| < HEADER_SIZE then Err(UnableToParseFile)
    else
      var h := Header(data[0], data[1], BE(data[2..4]), BE(data[4..8]));
      if h.majorVersion != IPP_MAJOR_VERSION || h.minorVersion != IPP_MINOR_VERSION then Err(UnableToParseFile)
      else Ok(h)
  }

  // ---------------------------------------------------------------------
  // Reading one pair

  /**
   * TEXT, a string prefixed by a one-byte length, at q; a short read is None
   * and leaves the cursor at the end of the data.
   */
  function TextAt(data: seq<byte>, q: nat): (r: (Option<string>, nat))
    requires q <= |data|
    ensures r.1 <= |data| && (r.0.Some? ==> r.1 > q)
  {
    if q < |data| && q + 1 + data[q] <= |data| then (Some(Chars(data[q + 1..q + 1 + data[q]])), q + 1 + data[q])
    else (None, |data|)
  }

  /** The value of a pair at q, read as its tag says. */
  function ValueAt(data: seq<byte>, tag: int, q: nat): (r: (Option<IppValue>, nat))
    requires q <= |data|
    ensures r.1 <= |data| && (r.0.Some? ==> r.1 > q)
  {
    if IntegerTag(tag) then
      if q + 5 <= |data| then (Some(IInt(BE(data[q + 1..q + 5]))), q + 5) else (None, |data|)
    else if tag == TYPE_BOOL then
      if q + 2 <= |data| then (Some(IBool(data[q + 1] != 0)), q + 2) else (None, |data|)
    else
      var (t, e) := TextAt(data, q);
      (if t.Some? then Some(IText(t.value)) else None, e)
  }

  /**
   * The tag stage at cursor pos: the value tag (after an optional group id)
   * and the cursor after the 0x00 separator. None at the end-of-attributes
   * group id, or on a short read.
   */
  function TagAt(data: seq<byte>, pos: nat): (r: (Option<int>, nat))
    requires pos <= |data|
    ensures r.1 <= |data| && (r.0.Some? ==> r.1 > pos)
  {
    if pos == |data| then (None, |data|)
    else if data[pos] == GROUP_END then (None, pos + 1)
    else if data[pos] in GROUP_LIST then
      if pos + 2 < |data| then (Some(data[pos + 1]), pos + 3) else (None, |data|)
    else if pos + 1 < |data| then (Some(data[pos]), pos + 2) else (None, |data|)
  }

  /** PAIR_NAME at q: the name TEXT and one skipped byte. */
  function NameAt(data: seq<byte>, q: nat): (r: (Option<string>, nat))
    requires q <= |data|
    ensures r.1 <= |data| && (r.0.Some? ==> r.1 > q)
  {
    var (name, e) := TextAt(data, q);
    if name.None? || e == |data| then (None, |data|) else (name, e + 1)
  }

  /**
   * ReadPair at cursor pos: the pair and the new cursor. None is the
   * (None, None) the parser returns at the end-of-attributes tag and on
   * any short read.
   */
  function ReadPairAt(data: seq<byte>, pos: nat): (r: (Option<Pair>, nat))
    requires pos <= |data|
    ensures r.1 <= |data| && (r.0.Some? ==> r.1 > pos)
  {
    var (tag, q) := TagAt(data, pos);
    if tag.None? then (None, q)
    else
      var (name, e) := NameAt(data, q);
      if name.None? then (None, |data|)
      else
        var (value, f) := ValueAt(data, tag.value, e);
        if value.None? then (None, |data|) else (Some((name.value, value.value)), f)
  }

  /** Python truthiness of a pair value. */
  predicate Truthy(v: IppValue)
  {
    match v
      case IInt(i) => i != 0
      case IBool(b) => b
      case IText(s) => s != ""
  }

  /** The parse loop's `while name or value`. */
  predicate Continues(p: Option<Pair>)
  {
    p.Some? && (p.value.0 != "" || Truthy(p.value.1))
  }

  /** The pairs the parse loop consumes from cursor pos on. */
  function PairsFrom(data: seq<byte>, pos: nat): seq<Pair>
    requires pos <= |data|
    decreases |data| - pos
  {
    var (p, next) := ReadPairAt(data, pos);
    if Continues(p) then [p.value] + PairsFrom(data, next) else []
  }

  // ---------------------------------------------------------------------
  // RFC 2910 attribute encoding, for the round trip

  predicate Latin1(s: string)
  {
    forall i :: 0 <= i < |s| ==> s[i] as int < 256
  }

  function Bytes(s: string): (b: seq<byte>)
    requires Latin1(s)
    ensures Chars(b) == s
  {
    seq(|s|, i requires 0 <= i < |s| => s[i] as int)
  }

  /** The value bytes an attribute with this tag carries, before the two-byte value length. */
  function ValueBytes(tag: byte, v: IppValue): (r: seq<byte>)
    requires v.IText? ==> Latin1(v.s) && |v.s| < 256
    ensures |r| < 256
  {
    match v
      case IInt(i) => EncodeBE(if 0 <= i then i else 0, 4)
      case IBool(b) => [if b then 1 else 0]
      case IText(s) => Bytes(s)
  }

  /** Is v a value of the type tag announces, short enough for one-byte lengths? */
  predicate Encodable(tag: byte, name: string, v: IppValue)
  {
    && tag != GROUP_END && tag !in GROUP_LIST
    && Latin1(name) && |name| < 256
    && (if IntegerTag(tag) then v.IInt? && 0 <= v.i < Pow256(4)
        else if tag == TYPE_BOOL then v.IBool?
        else v.IText? && Latin1(v.s) && |v.s| < 256)
  }

  /** A length-prefixed TEXT field: one length byte, then the bytes. */
  function TextField(s: string): (r: seq<byte>)
    requires Latin1(s) && |s| < 256
    ensures |r| == |s| + 1
  {
    [|s|] + Bytes(s)
  }

  /**
   * One attribute as section 3.1.4 of RFC 2910 lays it out: an optional
   * begin-attribute-group tag, the value tag, a two-byte name length, the
   * name, a two-byte value length and the value.
   */
  function EncodeAttribute(group: Option<byte>, tag: byte, name: string, v: IppValue): seq<byte>
    requires Encodable(tag, name, v)
  {
    var value := ValueBytes(tag, v);
    (if group.Some? then [group.value] else []) + [tag, 0] + TextField(name) + [0] + ([|value|] + value)
  }

  /** A TEXT field reads back as its string. */
  lemma TextRoundTrip(data: seq<byte>, q: nat, s: string)
    requires Latin1(s) && |s| < 256
    requires q + |s| + 1 <= |data| && data[q..q + |s| + 1] == TextField(s)
    ensures TextAt(data, q) == (Some(s), q + |s| + 1)
  {
    assert data[q] == TextField(s)[0];
    assert data[q + 1..q + 1 + |s|] == TextField(s)[1..];
  }

  predicate IntegerTag(tag: int)
  {
    tag == TYPE_GENERAL_INTEGER || tag == TYPE_INTEGER || tag == TYPE_ENUMERATION
  }

  lemma IntValueRoundTrip(data: seq<byte>, tag: byte, i: nat, q: nat)
    requires IntegerTag(tag) && i < Pow256(4)
    requires q + 5 <= |data| && data[q + 1..q + 5] == EncodeBE(i, 4)
    ensures ValueAt(data, tag, q) == (Some(IInt(i)), q + 5)
  {
    BEOfEncodeBE(i, 4);
  }

  lemma BoolValueRoundTrip(data: seq<byte>, b: bool, q: nat)
    requires q + 2 <= |data| && data[q + 1] == (if b then 1 else 0)
    ensures ValueAt(data, TYPE_BOOL, q) == (Some(IBool(b)), q + 2)
  {
  }

  lemma TextValueRoundTrip(data: seq<byte>, tag: byte, s: string, q: nat)
    requires !IntegerTag(tag) && tag != TYPE_BOOL && Latin1(s) && |s| < 256
    requires q + |s| + 1 <= |data| && data[q..q + |s| + 1] == TextField(s)
    ensures ValueAt(data, tag, q) == (Some(IText(s)), q + |s| + 1)
  {
    TextRoundTrip(data, q, s);
  }

  /** The value part of an encoded attribute reads back as the value. */
  lemma ValueRoundTrip(data: seq<byte>, tag: byte, name: string, v: IppValue, q: nat)
    requires Encodable(tag, name, v)
    requires var value := ValueBytes(tag, v);
      q + 1 + |value| <= |data| && data[q] == |value| && data[q + 1..q + 1 + |value|] == value
    ensures ValueAt(data, tag, q) == (Some(v), q + 1 + |ValueBytes(tag, v)|)
  {
    if IntegerTag(tag) {
      IntValueRoundTrip(data, tag, v.i, q);
    } else if tag == TYPE_BOOL {
      assert data[q + 1] == ValueBytes(tag, v)[0];
      BoolValueRoundTrip(data, v.b, q);
    } else {
      var value := ValueBytes(tag, v);
      assert data[q..q + |v.s| + 1] == TextField(v.s) by {
        assert data[q..q + |v.s| + 1] == [data[q]] + data[q + 1..q + 1 + |value|];
      }
      TextValueRoundTrip(data, tag, v.s, q);
    }
  }

  /** Where the three fields of an attribute sit in the data. */
  lemma Layout(head: seq<byte>, nameField: seq<byte>, valueField: seq<byte>, rest: seq<byte>)
    ensures var data := head + nameField + valueField + rest;
      && data[..|head|] == head
      && data[|head|..|head| + |nameField|] == nameField
      && data[|head| + |nameField|..|head| + |nameField| + |valueField|] == valueField
  {
    var data := head + nameField + valueField + rest;
    assert data == head + (nameField + (valueField + rest));
  }

  /** ReadPairAt from its three stages. */
  lemma ReadPairStages(data: seq<byte>, pos: nat, tag: int, q: nat, name: string, e: nat, v: IppValue, f: nat)
    requires pos <= |data| && q <= |data| && e <= |data|
    requires TagAt(data, pos) == (Some(tag), q)
    requires NameAt(data, q) == (Some(name), e)
    requires ValueAt(data, tag, e) == (Some(v), f)
    ensures ReadPairAt(data, pos) == (Some((name, v)), f)
  {
  }

  /** The group id, value tag and separator of an encoded attribute read back as the tag. */
  lemma TagRoundTrip(data: seq<byte>, group: Option<byte>, tag: byte)
    requires tag != GROUP_END && tag !in GROUP_LIST
    requires group.Some? ==> group.value in GROUP_LIST
    requires var head := (if group.Some? then [group.value] else []) + [tag, 0];
      |head| < |data| && data[..|head|] == head
    ensures TagAt(data, 0) == (Some(tag as int), if group.Some? then 3 else 2)
  {
    var head := (if group.Some? then [group.value] else []) + [tag, 0];
    assert data[0] == head[0];
    if group.Some? { assert data[1] == head[1]; }
  }

  /** The name field of an encoded attribute reads back as the name. */
  lemma NameRoundTrip(data: seq<byte>, q: nat, name: string)
    requires Latin1(name) && |name| < 256
    requires q + |name| + 2 < |data| && data[q..q + |name| + 2] == TextField(name) + [0]
    ensures NameAt(data, q) == (Some(name), q + |name| + 2)
  {
    assert data[q..q + |name| + 1] == TextField(name) by {
      assert data[q..q + |name| + 1] == data[q..q + |name| + 2][..|name| + 1];
    }
    TextRoundTrip(data, q, name);
  }

  /** The length of the group id, value tag and separator. */
  function HeadLength(group: Option<byte>): nat
  {
    if group.Some? then 3 else 2
  }

  /** EncodeAttribute as its three fields. */
  lemma Fields(group: Option<byte>, tag: byte, name: string, v: IppValue, rest: seq<byte>)
    requires Encodable(tag, name, v)
    ensures var value := ValueBytes(tag, v);
      var head := (if group.Some? then [group.value] else []) + [tag, 0];
      var nameField := TextField(name) + [0];
      var data := EncodeAttribute(group, tag, name, v) + rest;
      var e := HeadLength(group) + |name| + 2;
      && |EncodeAttribute(group, tag, name, v)| == e + 1 + |value|
      && data[..|head|] == head
      && data[HeadLength(group)..e] == nameField
      && data[e] == |value| && data[e + 1..e + 1 + |value|] == value
  {
    var value := ValueBytes(tag, v);
    var head := (if group.Some? then [group.value] else []) + [tag, 0];
    var nameField := TextField(name) + [0];
    var valueField := [|value|] + value;
    assert EncodeAttribute(group, tag, name, v) == head + nameField + valueField;
    assert valueField[0] == |value| && valueField[1..] == value;
    Layout(head, nameField, valueField, rest);
    ValueFieldAt(head + nameField, valueField, rest);
  }

  /** The length byte and the bytes of a value field after what precedes it. */
  lemma ValueFieldAt(before: seq<byte>, valueField: seq<byte>, rest: seq<byte>)
    requires valueField != []
    ensures var data := before + valueField + rest;
      data[|before|] == valueField[0] && data[|before| + 1..|before| + |valueField|] == valueField[1..]
  {
    var data := before + valueField + rest;
    assert data == before + (valueField + rest);
    assert data[|before| + 1..|before| + |valueField|] == (valueField + rest)[1..|valueField|];
  }

  lemma EncodedTag(group: Option<byte>, tag: byte, name: string, v: IppValue, rest: seq<byte>)
    requires Encodable(tag, name, v)
    requires group.Some? ==> group.value in GROUP_LIST
    ensures TagAt(EncodeAttribute(group, tag, name, v) + rest, 0) == (Some(tag as int), HeadLength(group))
  {
    Fields(group, tag, name, v, rest);
    TagRoundTrip(EncodeAttribute(group, tag, name, v) + rest, group, tag);
  }

  lemma EncodedName(group: Option<byte>, tag: byte, name: string, v: IppValue, rest: seq<byte>)
    requires Encodable(tag, name, v)
    ensures NameAt(EncodeAttribute(group, tag, name, v) + rest, HeadLength(group)) == (Some(name), HeadLength(group) + |name| + 2)
  {
    Fields(group, tag, name, v, rest);
    NameRoundTrip(EncodeAttribute(group, tag, name, v) + rest, HeadLength(group), name);
  }

  lemma EncodedValue(group: Option<byte>, tag: byte, name: string, v: IppValue, rest: seq<byte>)
    requires Encodable(tag, name, v)
    ensures var enc := EncodeAttribute(group, tag, name, v);
      ValueAt(enc + rest, tag, HeadLength(group) + |name| + 2) == (Some(v), |enc|)
  {
    Fields(group, tag, name, v, rest);
    ValueRoundTrip(EncodeAttribute(group, tag, name, v) + rest, tag, name, v, HeadLength(group) + |name| + 2);
  }

  /**
   * ReadPair decodes every RFC 2910 attribute whose name and value are
   * shorter than 256 bytes: the skipped byte before each length is its
   * high byte.
   */
  lemma ReadPairRoundTrip(group: Option<byte>, tag: byte, name: string, v: IppValue, rest: seq<byte>)
    requires Encodable(tag, name, v)
    requires group.Some? ==> group.value in GROUP_LIST
    ensures var enc := EncodeAttribute(group, tag, name, v);
      ReadPairAt(enc + rest, 0) == (Some((name, v)), |enc|)
  {
    var enc := EncodeAttribute(group, tag, name, v);
    EncodedTag(group, tag, name, v, rest);
    EncodedName(group, tag, name, v, rest);
    EncodedValue(group, tag, name, v, rest);
    Fields(group, tag, name, v, rest);
    ReadPairStages(enc + rest, 0, tag, HeadLength(group), name, HeadLength(group) + |name| + 2, v, |enc|);
  }

  // ---------------------------------------------------------------------
  // The dictionary of lists

  const NAME_PAIR_TRANSLATION: map<string, string> := map[
    "printer-uri" := "uri",
    "job-uuid" := "job_id",
    "DestinationPrinterID" := "printer_id",
    "job-originating-user-name" := "user",
    "job-name" := "job_name",
    "document-format" := "doc_type",
    "job-originating-host-name" := "computer_name",
    "com.apple.print.JobInfo.PMApplicationName" := "application",
    "com.apple.print.JobInfo.PMJobOwner" := "owner"]

  /** NAME_PAIR_TRANSLATION.get(name, name) */
  function PrettyName(name: string): string
  {
    if name in NAME_PAIR_TRANSLATION then NAME_PAIR_TRANSLATION[name] else name
  }

  /** data_dict: each name's values, in file order. */
  type DataDict = map<string, seq<IppValue>>

  /** data_dict.setdefault(key, []).append(v) */
  function Appended(d: DataDict, key: string, v: IppValue): (r: DataDict)
    ensures r.Keys == d.Keys + {key}
  {
    d[key := (if key in d then d[key] else []) + [v]]
  }

  /** The dictionary after the loop has appended every pair of ps to d under its renamed name. */
  function Collect(d: DataDict, ps: seq<Pair>, rename: string -> string): DataDict
    decreases |ps|
  {
    if ps == [] then d else Collect(Appended(d, rename(ps[0].0), ps[0].1), ps[1..], rename)
  }

  /** The values of the pairs of ps whose renamed name is key. */
  function ValuesUnder(ps: seq<Pair>, key: string, rename: string -> string): seq<IppValue>
  {
    if ps == [] then []
    else (if rename(ps[0].0) == key then [ps[0].1] else []) + ValuesUnder(ps[1..], key, rename)
  }

  /** A name is present after the loop exactly when it was before or some pair translates to it. */
  lemma {:induction false} CollectKeys(d: DataDict, ps: seq<Pair>, key: string, rename: string -> string)
    ensures key in Collect(d, ps, rename) <==> key in d || ValuesUnder(ps, key, rename) != []
    decreases |ps|
  {
    if ps != [] {
      var d1 := Appended(d, rename(ps[0].0), ps[0].1);
      assert Collect(d, ps, rename) == Collect(d1, ps[1..], rename);
      CollectKeys(d1, ps[1..], key, rename);
    }
  }

  /**
   * After the loop every name's list holds the values of its pairs in file
   * order, appended to what it held.
   */
  lemma {:induction false} CollectInFileOrder(d: DataDict, ps: seq<Pair>, key: string, rename: string -> string)
    requires key in Collect(d, ps, rename)
    ensures Collect(d, ps, rename)[key] == (if key in d then d[key] else []) + ValuesUnder(ps, key, rename)
    decreases |ps|
  {
    if ps != [] {
      var d1 := Appended(d, rename(ps[0].0), ps[0].1);
      assert Collect(d, ps, rename) == Collect(d1, ps[1..], rename);
      CollectInFileOrder(d1, ps[1..], key, rename);
      var here := if rename(ps[0].0) == key then [ps[0].1] else [];
      assert ValuesUnder(ps, key, rename) == here + ValuesUnder(ps[1..], key, rename);
      assert (if key in d1 then d1[key] else []) == (if key in d then d[key] else []) + here;
    }
  }

  // ---------------------------------------------------------------------
  // _ListToString

  /** One element wrapped in double quotes when it contains the ',' delimiter. */
  function Quote(s: string): (r: string)
    ensures Contains(r, ",") <==> Contains(s, ",")
  {
    if Contains(s, ",") then
      assert Contains("\"" + s + "\"", ",") by {
        var k := Find(s, ",").value;
        assert ("\"" + s + "\"")[k + 1..k + 2] == s[k..k + 1];
        assert At("\"" + s + "\"", ",", k + 1);
      }
      "\"" + s + "\""
    else s
  }

  /**
   * The in-place loop from index i: a text element containing ',' is
   * replaced by its quoted form; the first non-text element raises
   * TypeError (`',' in value`), leaving the earlier replacements in place.
   */
  function QuoteFrom(vs: seq<IppValue>, i: nat): (r: (seq<IppValue>, Option<Exc>))
    requires i <= |vs|
    ensures |r.0| == |vs|
    decreases |vs| - i
  {
    if i == |vs| then (vs, None)
    else if !vs[i].IText? then (vs, Some(TypeError))
    else QuoteFrom(vs[i := IText(Quote(vs[i].s))], i + 1)
  }

  predicate AllText(vs: seq<IppValue>)
  {
    forall j :: 0 <= j < |vs| ==> vs[j].IText?
  }

  function Texts(vs: seq<IppValue>): (r: seq<string>)
    requires AllText(vs)
    ensures |r| == |vs| && forall j :: 0 <= j < |vs| ==> r[j] == vs[j].s
  {
    if vs == [] then [] else [vs[0].s] + Texts(vs[1..])
  }

  /** The whole loop: all elements are processed exactly when all are text, and each is quoted. */
  lemma {:induction false} QuoteFromAll(vs: seq<IppValue>, i: nat)
    requires i <= |vs|
    ensures var r := QuoteFrom(vs, i);
      && (r.1.None? <==> forall j :: i <= j < |vs| ==> vs[j].IText?)
      && (r.1.Some? ==> r.1.value == TypeError)
      && (forall j :: 0 <= j < i ==> r.0[j] == vs[j])
      && (r.1.None? ==> forall j :: i <= j < |vs| ==> r.0[j] == IText(Quote(vs[j].s)))
    decreases |vs| - i
  {
    if i < |vs| && vs[i].IText? {
      var w := vs[i := IText(Quote(vs[i].s))];
      QuoteFromAll(w, i + 1);
      var r := QuoteFrom(vs, i);
      assert r == QuoteFrom(w, i + 1);
      assert r.0[i] == w[i];
      assert (forall j :: i <= j < |vs| ==> vs[j].IText?) <==> (forall j :: i + 1 <= j < |vs| ==> w[j].IText?) by {
        assert forall j :: i + 1 <= j < |vs| ==> w[j] == vs[j];
      }
      if r.1.None? {
        forall j | i <= j < |vs|
          ensures r.0[j] == IText(Quote(vs[j].s))
        {
          if j > i { assert w[j] == vs[j]; }
        }
      }
    }
  }

  /** _ListToString on data_dict.get(key, None), with the dictionary after the in-place update. */
  function ListToStringOf(d: DataDict, key: string): (Result<Option<string>>, DataDict)
  {
    if key !in d then (Ok(None), d)
    else
      var (vs, e) := QuoteFrom(d[key], 0);
      if e.Some? then (Err(e.value), d[key := vs])
      else
        QuoteFromAll(d[key], 0);
        (Ok(Some(Join(Texts(vs), ", "))), d[key := vs])
  }

  /** A present list of text values is joined with ", ", each element quoted, and written back quoted. */
  lemma ListToStringJoins(d: DataDict, key: string)
    requires key in d && AllText(d[key])
    ensures var (r, d1) := ListToStringOf(d, key);
      && d1.Keys == d.Keys && AllText(d1[key])
      && (forall k :: k in d && k != key ==> d1[k] == d[k])
      && (forall j :: 0 <= j < |d[key]| ==> d1[key][j] == IText(Quote(d[key][j].s)))
      && r == Ok(Some(Join(Texts(d1[key]), ", ")))
  {
    QuoteFromAll(d[key], 0);
  }

  /** A present list with a non-text element raises TypeError. */
  lemma ListToStringRejectsNonText(d: DataDict, key: string)
    requires key in d && !AllText(d[key])
    ensures ListToStringOf(d, key).0 == Err(TypeError)
  {
    QuoteFromAll(d[key], 0);
  }

  // ---------------------------------------------------------------------
  // Events

  datatype TimeDesc = CreationTime | StartTime | EndTime

  datatype CupsEvent = CupsEvent(
    timestamp: int, timestampDesc: TimeDesc,
    user: Option<string>, owner: Option<string>, computerName: Option<string>,
    printerId: Option<string>, uri: Option<string>, jobId: Option<string>,
    jobName: Option<string>, copies: IppValue, application: Option<string>,
    docType: Option<string>)

  /**
   * FromPosixTime of a time value. A bool is the integer 0 or 1; a string
   * compares greater than every number in Python 2, so the range check
   * gives 0.
   */
  function PosixOf(v: IppValue): int
  {
    match v
      case IInt(i) => Timelib.FromPosixTime(i)
      case IBool(b) => Timelib.FromPosixTime(if b then 1 else 0)
      case IText(_) => 0
  }

  /**
   * _ListToString on each key of keys in turn, threading the dictionary;
   * the first exception ends it.
   */
  function ListStrings(d: DataDict, keys: seq<string>): (r: (Result<seq<Option<string>>>, DataDict))
    ensures r.0.Ok? ==> |r.0.value| == |keys|
    decreases |keys|
  {
    if keys == [] then (Ok([]), d)
    else
      var (first, d1) := ListToStringOf(d, keys[0]);
      if first.Err? then (Err(first.exc), d1)
      else
        var (rest, d2) := ListStrings(d1, keys[1..]);
        if rest.Err? then (rest, d2) else (Ok([first.value] + rest.value), d2)
  }

  /** The attributes the constructor converts before copies, in its order. */
  const FIRST_FIELDS: seq<string> := ["user", "owner", "computer_name", "printer_id", "uri", "job_id", "job_name"]
  /** The attributes it converts after copies. */
  const LAST_FIELDS: seq<string> := ["application", "doc_type"]

  /**
   * CupsIppEvent(time, desc, data_dict), with the dictionary its
   * _ListToString calls leave behind. The fields are converted in the order
   * the constructor assigns them; `data_dict.get('copies', 0)[0]` raises
   * TypeError when there is no copies list.
   */
  function EventOf(time: IppValue, desc: TimeDesc, d: DataDict): (Result<CupsEvent>, DataDict)
  {
    var (a, d7) := ListStrings(d, FIRST_FIELDS);
    if a.Err? then (Err(a.exc), d7)
    else if "copies" !in d7 then (Err(TypeError), d7)
    else if d7["copies"] == [] then (Err(IndexError), d7)
    else
      var (b, d9) := ListStrings(d7, LAST_FIELDS);
      if b.Err? then (Err(b.exc), d9)
      else
        var f := a.value;
        (Ok(CupsEvent(PosixOf(time), desc, f[0], f[1], f[2], f[3], f[4], f[5], f[6],
                      d7["copies"][0], b.value[0], b.value[1])), d9)
  }

  /** The event for one time key, when the key is present, and the dictionary after it. */
  function TimeEventOf(d: DataDict, key: string, desc: TimeDesc): (Option<Result<CupsEvent>>, DataDict)
  {
    if key !in d then (None, d)
    else if d[key] == [] then (Some(Err(IndexError)), d)
    else
      var (e, d1) := EventOf(d[key][0], desc, d);
      (Some(e), d1)
  }

  /** The generator's output: present events in order, stopping at the first exception. */
  function Emit(es: seq<Option<Result<CupsEvent>>>): (r: Yielded<CupsEvent>)
    ensures |r.events| <= |es|
  {
    if es == [] then Yielded([], None)
    else match es[0]
      case None => Emit(es[1..])
      case Some(Err(x)) => Yielded([], Some(x))
      case Some(Ok(ev)) => Then([ev], Emit(es[1..]))
  }

  const CREATION_KEY: string := "time-at-creation"
  const PROCESSING_KEY: string := "time-at-processing"
  const COMPLETED_KEY: string := "time-at-completed"

  /** The three conditional yields, in order, all sharing (and updating) one dictionary. */
  function EventsOf(d0: DataDict): Yielded<CupsEvent>
  {
    var (e1, d1) := TimeEventOf(d0, CREATION_KEY, CreationTime);
    var (e2, d2) := TimeEventOf(d1, PROCESSING_KEY, StartTime);
    var (e3, _) := TimeEventOf(d2, COMPLETED_KEY, EndTime);
    Emit([e1, e2, e3])
  }

  /** CupsIppParser.Parse on the whole file. */
  function ParseOf(data: seq<byte>): Yielded<CupsEvent>
  {
    match ParseHeader(data)
      case Err(e) => Yielded([], Some(e))
      case Ok(_) => EventsOf(Collect(map[], PairsFrom(data, HEADER_SIZE), PrettyName))
  }

  /** The keys the event passes through _ListToString. */
  const FIELD_KEYS: seq<string> := FIRST_FIELDS + LAST_FIELDS

  /** Every field list present holds text only. */
  predicate FieldsText(d: DataDict)
  {
    forall k :: k in d && k in FIELD_KEYS ==> AllText(d[k])
  }

  /** Key k is present in d1 exactly when in d, with the same list. */
  predicate Unchanged(d: DataDict, d1: DataDict, k: string)
  {
    (k in d <==> k in d1) && (k in d ==> d1[k] == d[k])
  }

  /** The copies list and the three time lists are untouched. */
  predicate OthersKept(d: DataDict, d1: DataDict)
  {
    && Unchanged(d, d1, "copies") && Unchanged(d, d1, CREATION_KEY)
    && Unchanged(d, d1, PROCESSING_KEY) && Unchanged(d, d1, COMPLETED_KEY)
  }

  lemma OthersAreNotFields()
    ensures "copies" !in FIELD_KEYS && CREATION_KEY !in FIELD_KEYS
    ensures PROCESSING_KEY !in FIELD_KEYS && COMPLETED_KEY !in FIELD_KEYS
  {
  }

  /** One _ListToString call on a dictionary whose field lists are text: no exception, only key's list changes. */
  lemma ListToStringKeeps(d: DataDict, key: string)
    requires key in FIELD_KEYS && FieldsText(d)
    ensures var (r, d1) := ListToStringOf(d, key);
      r.Ok? && FieldsText(d1) && OthersKept(d, d1)
  {
    OthersAreNotFields();
    if key in d {
      ListToStringJoins(d, key);
    }
  }

  /** The same for a run of field keys. */
  lemma {:induction false} ListStringsKeeps(d: DataDict, keys: seq<string>)
    requires (forall k :: k in keys ==> k in FIELD_KEYS) && FieldsText(d)
    ensures var (r, d1) := ListStrings(d, keys);
      r.Ok? && FieldsText(d1) && OthersKept(d, d1)
    decreases |keys|
  {
    if keys != [] {
      ListToStringKeeps(d, keys[0]);
      ListStringsKeeps(ListToStringOf(d, keys[0]).1, keys[1..]);
    }
  }

  /**
   * An event is built when no field list holds a non-text value and there
   * is a copies list: it carries the POSIX time, the description and the
   * first copies value, and only the field lists are rewritten.
   */
  lemma EventOfBuilds(time: IppValue, desc: TimeDesc, d: DataDict)
    requires FieldsText(d) && "copies" in d && d["copies"] != []
    ensures var (r, d9) := EventOf(time, desc, d);
      && r.Ok? && r.value.timestamp == PosixOf(time) && r.value.timestampDesc == desc
      && r.value.copies == d["copies"][0]
      && FieldsText(d9) && OthersKept(d, d9)
  {
    ListStringsKeeps(d, FIRST_FIELDS);
    var d7 := ListStrings(d, FIRST_FIELDS).1;
    ListStringsKeeps(d7, LAST_FIELDS);
  }

  /** Without a copies list no event can be built: `data_dict.get('copies', 0)[0]` raises TypeError. */
  lemma NoCopiesRaises(time: IppValue, desc: TimeDesc, d: DataDict)
    requires FieldsText(d) && "copies" !in d
    ensures EventOf(time, desc, d).0 == Err(TypeError)
  {
    ListStringsKeeps(d, FIRST_FIELDS);
  }

  predicate NonEmptyAt(d: DataDict, k: string)
  {
    k in d ==> d[k] != []
  }

  /**
   * A dictionary whose events can all be built: field lists of text, a
   * copies list, and (as the parse loop guarantees) no empty list.
   */
  predicate Buildable(d: DataDict)
  {
    && FieldsText(d) && "copies" in d && d["copies"] != []
    && NonEmptyAt(d, CREATION_KEY) && NonEmptyAt(d, PROCESSING_KEY) && NonEmptyAt(d, COMPLETED_KEY)
  }

  /** The description and time of each event. */
  function Stamps(events: seq<CupsEvent>): seq<(TimeDesc, int)>
  {
    if events == [] then [] else [(events[0].timestampDesc, events[0].timestamp)] + Stamps(events[1..])
  }

  lemma {:induction false} StampsConcat(a: seq<CupsEvent>, b: seq<CupsEvent>)
    ensures Stamps(a + b) == Stamps(a) + Stamps(b)
  {
    if a != [] {
      assert (a + b)[1..] == a[1..] + b;
      StampsConcat(a[1..], b);
    } else {
      assert a + b == b;
    }
  }

  /** The stamp a present time key's event carries. */
  function ExpectedAt(d: DataDict, key: string, desc: TimeDesc): seq<(TimeDesc, int)>
  {
    if key in d && d[key] != [] then [(desc, PosixOf(d[key][0]))] else []
  }

  /** The stamps of the events of a buildable dictionary: one per time key present, in yield order. */
  function Expected(d: DataDict): seq<(TimeDesc, int)>
  {
    ExpectedAt(d, CREATION_KEY, CreationTime) + ExpectedAt(d, PROCESSING_KEY, StartTime)
      + ExpectedAt(d, COMPLETED_KEY, EndTime)
  }

  /** The events a slot contributes. */
  function Built(e: Option<Result<CupsEvent>>): seq<CupsEvent>
  {
    if e.Some? && e.value.Ok? then [e.value.value] else []
  }

  /** A time key's yield on a buildable dictionary: its event exactly when the key is present. */
  lemma TimeEventBuilds(d: DataDict, key: string, desc: TimeDesc)
    requires Buildable(d) && (key == CREATION_KEY || key == PROCESSING_KEY || key == COMPLETED_KEY)
    ensures var (e, d1) := TimeEventOf(d, key, desc);
      && (e.None? || e.value.Ok?)
      && Stamps(Built(e)) == ExpectedAt(d, key, desc)
      && Buildable(d1) && OthersKept(d, d1)
  {
    if key in d {
      EventOfBuilds(d[key][0], desc, d);
    }
  }

  /** A slot that holds no exception contributes its events ahead of the rest. */
  lemma EmitStep(e: Option<Result<CupsEvent>>, rest: seq<Option<Result<CupsEvent>>>)
    requires e.None? || e.value.Ok?
    ensures Emit([e] + rest) == Then(Built(e), Emit(rest))
  {
    assert ([e] + rest)[1..] == rest;
  }

  /** Emit of slots that hold no exception yields all their events. */
  lemma EmitAll(e1: Option<Result<CupsEvent>>, e2: Option<Result<CupsEvent>>, e3: Option<Result<CupsEvent>>)
    requires (e1.None? || e1.value.Ok?) && (e2.None? || e2.value.Ok?) && (e3.None? || e3.value.Ok?)
    ensures Emit([e1, e2, e3]) == Yielded(Built(e1) + Built(e2) + Built(e3), None)
  {
    EmitTwo(e2, e3);
    EmitStep(e1, [e2, e3]);
    assert [e1] + [e2, e3] == [e1, e2, e3];
    assert Built(e1) + (Built(e2) + Built(e3)) == Built(e1) + Built(e2) + Built(e3);
  }

  lemma EmitTwo(e2: Option<Result<CupsEvent>>, e3: Option<Result<CupsEvent>>)
    requires (e2.None? || e2.value.Ok?) && (e3.None? || e3.value.Ok?)
    ensures Emit([e2, e3]) == Yielded(Built(e2) + Built(e3), None)
  {
    EmitStep(e3, []);
    assert [e3] + [] == [e3];
    assert Built(e3) + [] == Built(e3);
    EmitStep(e2, [e3]);
    assert [e2] + [e3] == [e2, e3];
  }

  /**
   * On a buildable dictionary the parser yields one event per time key
   * present, in the order creation, processing, completed, each with that
   * key's first value as its POSIX time.
   */
  lemma EventsPerTimeKey(d: DataDict)
    requires Buildable(d)
    ensures EventsOf(d).error.None? && Stamps(EventsOf(d).events) == Expected(d)
  {
    var (e1, d1) := TimeEventOf(d, CREATION_KEY, CreationTime);
    TimeEventBuilds(d, CREATION_KEY, CreationTime);
    var (e2, d2) := TimeEventOf(d1, PROCESSING_KEY, StartTime);
    TimeEventBuilds(d1, PROCESSING_KEY, StartTime);
    assert ExpectedAt(d1, PROCESSING_KEY, StartTime) == ExpectedAt(d, PROCESSING_KEY, StartTime);
    var (e3, d3) := TimeEventOf(d2, COMPLETED_KEY, EndTime);
    TimeEventBuilds(d2, COMPLETED_KEY, EndTime);
    assert ExpectedAt(d2, COMPLETED_KEY, EndTime) == ExpectedAt(d, COMPLETED_KEY, EndTime);
    EmitAll(e1, e2, e3);
    StampsConcat(Built(e1) + Built(e2), Built(e3));
    StampsConcat(Built(e1), Built(e2));
  }

  /** _ListToString calls on other keys leave key's list alone. */
  lemma {:induction false} ListStringsOthers(d: DataDict, keys: seq<string>, key: string)
    requires key !in keys
    ensures Unchanged(d, ListStrings(d, keys).1, key)
    decreases |keys|
  {
    if keys != [] {
      ListStringsOthers(ListToStringOf(d, keys[0]).1, keys[1..], key);
    }
  }

  /** An event's user is _ListToString of the user list, and the dictionary keeps the rewritten list. */
  lemma EventUser(time: IppValue, desc: TimeDesc, d: DataDict)
    requires Buildable(d) && "user" in d
    ensures var (r, d9) := EventOf(time, desc, d);
      var (u, du) := ListToStringOf(d, "user");
      r.Ok? && r.value.user == u.value && "user" in d9 && d9["user"] == du["user"]
  {
    EventOfBuilds(time, desc, d);
    var (u, du) := ListToStringOf(d, "user");
    ListToStringKeeps(d, "user");
    assert FIRST_FIELDS[0] == "user" && FIRST_FIELDS[1..] == ["owner", "computer_name", "printer_id", "uri", "job_id", "job_name"];
    ListStringsOthers(du, FIRST_FIELDS[1..], "user");
    var d7 := ListStrings(du, FIRST_FIELDS[1..]).1;
    ListStringsKeeps(du, FIRST_FIELDS[1..]);
    ListStringsOthers(d7, LAST_FIELDS, "user");
  }

  /** Quoting a quoted string quotes it again: its ',' is still there. */
  lemma QuoteTwice(s: string)
    requires Contains(s, ",")
    ensures Quote(Quote(s)) == "\"\"" + s + "\"\""
  {
    var q := Quote(s);
    assert q == "\"" + s + "\"";
    assert Contains(q, ",");
    assert "\"" + q + "\"" == "\"\"" + s + "\"\"";
  }

  /** One time key's event on a dictionary whose user list is the one string s. */
  lemma UserAfterEvent(d: DataDict, key: string, desc: TimeDesc, s: string)
    requires Buildable(d) && "user" in d && d["user"] == [IText(s)]
    requires key in d && (key == CREATION_KEY || key == PROCESSING_KEY || key == COMPLETED_KEY)
    ensures var (e, d1) := TimeEventOf(d, key, desc);
      && e.Some? && e.value.Ok? && e.value.value.user == Some(Quote(s))
      && Buildable(d1) && OthersKept(d, d1) && "user" in d1 && d1["user"] == [IText(Quote(s))]
  {
    TimeEventBuilds(d, key, desc);
    EventUser(d[key][0], desc, d);
    ListToStringJoins(d, "user");
    var du := ListToStringOf(d, "user").1;
    assert Texts(du["user"]) == [Quote(s)];
  }

  /** The first two time keys' events on a dictionary whose user list is the one string s. */
  lemma FirstTwoUsers(d: DataDict, s: string)
    requires Buildable(d) && "user" in d && d["user"] == [IText(s)]
    requires CREATION_KEY in d && PROCESSING_KEY in d
    ensures var (e1, d1) := TimeEventOf(d, CREATION_KEY, CreationTime);
      var (e2, d2) := TimeEventOf(d1, PROCESSING_KEY, StartTime);
      && e1.Some? && e1.value.Ok? && e1.value.value.user == Some(Quote(s))
      && e2.Some? && e2.value.Ok? && e2.value.value.user == Some(Quote(Quote(s)))
      && Buildable(d2)
  {
    var (e1, d1) := TimeEventOf(d, CREATION_KEY, CreationTime);
    UserAfterEvent(d, CREATION_KEY, CreationTime, s);
    UserAfterEvent(d1, PROCESSING_KEY, StartTime, Quote(s));
  }

  /**
   * The events share data_dict, whose lists _ListToString rewrites in
   * place: a user name containing ',' is quoted once in the first event and
   * quoted again in the second.
   */
  lemma SharedListQuotedAgain(d: DataDict, s: string)
    requires Buildable(d) && "user" in d && d["user"] == [IText(s)] && Contains(s, ",")
    requires CREATION_KEY in d && PROCESSING_KEY in d
    ensures |EventsOf(d).events| >= 2
    ensures EventsOf(d).events[0].user == Some("\"" + s + "\"")
    ensures EventsOf(d).events[1].user == Some("\"\"" + s + "\"\"")
  {
    var (e1, d1) := TimeEventOf(d, CREATION_KEY, CreationTime);
    var (e2, d2) := TimeEventOf(d1, PROCESSING_KEY, StartTime);
    var (e3, d3) := TimeEventOf(d2, COMPLETED_KEY, EndTime);
    FirstTwoUsers(d, s);
    QuoteTwice(s);
    TimeEventBuilds(d2, COMPLETED_KEY, EndTime);
    EmitAll(e1, e2, e3);
  }

  /** At most three events come out of a file. */
  lemma AtMostThree(data: seq<byte>)
    ensures |ParseOf(data).events| <= 3
  {
  }

  // ---------------------------------------------------------------------
  // The parser's objects

  /** The file object the parser reads with a cursor. */
  class FileObject {
    const data: seq<byte>
    var offset: nat

    constructor(data: seq<byte>)
      ensures this.data == data && offset == 0
    {
      this.data := data;
      offset := 0;
    }

    /** seek(0, os.SEEK_SET) */
    method Rewind()
      modifies this
      ensures offset == 0
    {
      offset := 0;
    }

    /** INTEGER_8.parse_stream: one byte, or None at the end of the data. */
    method ReadByte() returns (b: Option<byte>)
      requires offset <= |data|
      modifies this
      ensures b.Some? <==> old(offset) < |data|
      ensures b.Some? ==> b.value == data[old(offset)] && offset == old(offset) + 1
      ensures b.None? ==> offset == |data|
    {
      if offset < |data| {
        b := Some(data[offset]);
        offset := offset + 1;
      } else {
        b := None;
      }
    }

    /** read(n) for a construct field of n bytes: None when fewer remain, and the cursor then ends at the end. */
    method ReadBytes(n: nat) returns (b: Option<seq<byte>>)
      requires offset <= |data|
      modifies this
      ensures b.Some? <==> old(offset) + n <= |data|
      ensures b.Some? ==> b.value == data[old(offset)..old(offset) + n] && offset == old(offset) + n
      ensures b.None? ==> offset == |data|
    {
      if offset + n <= |data| {
        b := Some(data[offset..offset + n]);
        offset := offset + n;
      } else {
        b := None;
        offset := |data|;
      }
    }

    /** TEXT.parse_stream: a one-byte length, then that many bytes. */
    method ReadText() returns (t: Option<string>)
      requires offset <= |data|
      modifies this
      ensures (t, offset) == TextAt(data, old(offset))
    {
      var len := ReadByte();
      if len.None? {
        return None;
      }
      var text := ReadBytes(len.value);
      if text.None? {
        return None;
      }
      t := Some(Chars(text.value));
    }

    /** The type id, the tag after a group id, and the 0x00 separator. */
    method ReadTag() returns (tag: Option<int>)
      requires offset <= |data|
      modifies this
      ensures (tag, offset) == TagAt(data, old(offset))
    {
      var t := ReadByte();
      if t.None? {
        return None;
      }
      if t.value == GROUP_END {
        return None;
      }
      var id := t.value;
      if id in GROUP_LIST {
        t := ReadByte();
        if t.None? {
          return None;
        }
        id := t.value;
      }
      var sep := ReadByte();
      if sep.None? {
        return None;
      }
      tag := Some(id);
    }

    /** PAIR_NAME.parse_stream(...).text */
    method ReadName() returns (name: Option<string>)
      requires offset <= |data|
      modifies this
      ensures (name, offset) == NameAt(data, old(offset))
    {
      name := ReadText();
      if name.None? {
        return None;
      }
      var pad := ReadByte();
      if pad.None? {
        return None;
      }
    }

    /** The value, read by INTEGER, BOOLEAN or TEXT as the tag says. */
    method ReadValue(tag: int) returns (value: Option<IppValue>)
      requires offset <= |data|
      modifies this
      ensures (value, offset) == ValueAt(data, tag, old(offset))
    {
      var start := offset;
      if IntegerTag(tag) {
        var b := ReadBytes(5);
        if b.None? {
          return None;
        }
        assert b.value[1..] == data[start + 1..start + 5];
        value := Some(IInt(BE(b.value[1..])));
      } else if tag == TYPE_BOOL {
        var b := ReadBytes(2);
        if b.None? {
          return None;
        }
        value := Some(IBool(b.value[1] != 0));
      } else {
        var text := ReadText();
        value := if text.Some? then Some(IText(text.value)) else None;
      }
    }

    /** CupsIppParser.ReadPair: the tag, the name, then the value; (None, None) on any short read. */
    method ReadPair() returns (p: Option<Pair>)
      requires offset <= |data|
      modifies this
      ensures (p, offset) == ReadPairAt(data, old(offset))
    {
      var tag := ReadTag();
      if tag.None? {
        return None;
      }
      var name := ReadName();
      if name.None? {
        offset := |data|;
        return None;
      }
      var value := ReadValue(tag.value);
      if value.None? {
        return None;
      }
      p := Some((name.value, value.value));
    }
  }

  /** data_dict, whose lists the events' _ListToString calls rewrite in place. */
  class DataDictObject {
    var lists: DataDict

    constructor()
      ensures lists == map[]
    {
      lists := map[];
    }

    /** data_dict.setdefault(key, []).append(v) */
    method SetDefaultAppend(key: string, v: IppValue)
      modifies this
      ensures lists == Appended(old(lists), key, v)
    {
      lists := Appended(lists, key, v);
    }

    /** The constructor's _ListToString calls on keys, in order, up to the first exception. */
    method ListToStrings(keys: seq<string>) returns (r: Result<seq<Option<string>>>)
      modifies this
      ensures (r, lists) == ListStrings(old(lists), keys)
      decreases |keys|
    {
      if keys == [] {
        return Ok([]);
      }
      var first := ListToString(keys[0]);
      if first.Err? {
        return Err(first.exc);
      }
      var rest := ListToStrings(keys[1..]);
      if rest.Err? {
        return rest;
      }
      r := Ok([first.value] + rest.value);
    }

    /** CupsIppEvent._ListToString(data_dict.get(key, None)) */
    method ListToString(key: string) returns (r: Result<Option<string>>)
      modifies this
      ensures (r, lists) == ListToStringOf(old(lists), key)
    {
      if key !in lists {
        return Ok(None);
      }
      ghost var start := lists[key];
      var i := 0;
      while i < |lists[key]|
        invariant key in lists && |lists[key]| == |start|
        invariant 0 <= i <= |start|
        invariant lists == old(lists)[key := lists[key]]
        invariant QuoteFrom(lists[key], i) == QuoteFrom(start, 0)
      {
        var value := lists[key][i];
        if !value.IText? {
          return Err(TypeError);
        }
        if Contains(value.s, ",") {
          lists := lists[key := lists[key][i := IText("\"" + value.s + "\"")]];
        } else {
          assert lists[key][i := IText(Quote(value.s))] == lists[key];
        }
        i := i + 1;
      }
      QuoteFromAll(start, 0);
      r := Ok(Some(Join(Texts(lists[key]), ", ")));
    }
  }

  /** CupsIppEvent.__init__ */
  method NewEvent(time: IppValue, desc: TimeDesc, d: DataDictObject) returns (r: Result<CupsEvent>)
    modifies d
    ensures (r, d.lists) == EventOf(time, desc, old(d.lists))
  {
    var timestamp := PosixOf(time);
    var a := d.ListToStrings(FIRST_FIELDS);
    if a.Err? { return Err(a.exc); }
    if "copies" !in d.lists { return Err(TypeError); }
    if d.lists["copies"] == [] { return Err(IndexError); }
    var copies := d.lists["copies"][0];
    var b := d.ListToStrings(LAST_FIELDS);
    if b.Err? { return Err(b.exc); }
    var f := a.value;
    r := Ok(CupsEvent(timestamp, desc, f[0], f[1], f[2], f[3], f[4], f[5], f[6], copies, b.value[0], b.value[1]));
  }

  /** One `if key in data_dict: yield CupsIppEvent(data_dict[key][0], desc, data_dict)`. */
  method TimeEvent(d: DataDictObject, key: string, desc: TimeDesc) returns (r: Option<Result<CupsEvent>>)
    modifies d
    ensures (r, d.lists) == TimeEventOf(old(d.lists), key, desc)
  {
    if key !in d.lists {
      return None;
    }
    if d.lists[key] == [] {
      return Some(Err(IndexError));
    }
    var e := NewEvent(d.lists[key][0], desc, d);
    r := Some(e);
  }

  /**
   * The parse loop: read pairs while the name or the value is truthy,
   * appending each value under its translated name.
   */
  method ReadPairs(f: FileObject, d: DataDictObject)
    requires f.offset <= |f.data|
    modifies f, d
    ensures d.lists == Collect(old(d.lists), PairsFrom(f.data, old(f.offset)), PrettyName)
  {
    ghost var at := f.offset;
    var p := f.ReadPair();
    while Continues(p)
      invariant at <= f.offset <= |f.data|
      invariant (p, f.offset) == ReadPairAt(f.data, at)
      invariant Collect(d.lists, PairsFrom(f.data, at), PrettyName) == Collect(old(d.lists), PairsFrom(f.data, old(f.offset)), PrettyName)
      decreases |f.data| - at
    {
      d.SetDefaultAppend(PrettyName(p.value.0), p.value.1);
      at := f.offset;
      p := f.ReadPair();
    }
  }

  /** The three conditional yields over the shared dictionary. */
  method YieldEvents(d: DataDictObject) returns (r: Yielded<CupsEvent>)
    modifies d
    ensures r == EventsOf(old(d.lists))
  {
    var e1 := TimeEvent(d, CREATION_KEY, CreationTime);
    if e1.Some? && e1.value.Err? {
      return Yielded([], Some(e1.value.exc));
    }
    var e2 := TimeEvent(d, PROCESSING_KEY, StartTime);
    if e2.Some? && e2.value.Err? {
      ghost var e3 := TimeEventOf(d.lists, COMPLETED_KEY, EndTime).0;
      assert EventsOf(old(d.lists)) == Emit([e1, e2, e3]);
      assert [e1, e2, e3][1..] == [e2, e3];
      assert Emit([e2, e3]) == Yielded([], Some(e2.value.exc));
      return Yielded(if e1.Some? then [e1.value.value] else [], Some(e2.value.exc));
    }
    var e3 := TimeEvent(d, COMPLETED_KEY, EndTime);
    r := Emit([e1, e2, e3]);
  }

  /** CupsIppParser.Parse */
  method Parse(f: FileObject) returns (r: Yielded<CupsEvent>)
    modifies f
    ensures r == ParseOf(f.data)
  {
    f.Rewind();
    var raw := f.ReadBytes(HEADER_SIZE);
    if raw.None? {
      return Yielded([], Some(UnableToParseFile));
    }
    assert ParseHeader(raw.value) == ParseHeader(f.data) by {
      assert raw.value[2..4] == f.data[2..4];
      assert raw.value[4..8] == f.data[4..8];
    }
    var header := ParseHeader(raw.value);
    if header.Err? {
      return Yielded([], Some(header.exc));
    }
    var d := new DataDictObject();
    ReadPairs(f, d);
    r := YieldEvents(d);
  }
}
