/**
 * The Symantec AV Corporate Edition / Endpoint Protection scan log parser:
 * each CSV row carries its time as six hexadecimal octets (years since
 * 1970, 0-based month, day, hour, minute, second), and the row is accepted
 * only with a non-zero time, an event code in 1..77 and a category in 1..4.
 */
module Symantec {
  import opened Common
  import opened Timelib

  const DATA_TYPE: string := "av:symantec:scanlog"

  /** A CSV row by column name; None is a column the line ran short of. */
  type Row = map<string, Option<string>>

  /** A row the CSV reader produced has every column of the format. */
  predicate HasColumns(row: Row)
  {
    "time" in row && "event" in row && "cat" in row
  }

  /**
   * zip(s[::2], s[1::2]): the characters paired off from the start, a last
   * odd character dropped.
   */
  function Pairs(s: string): (r: seq<string>)
    ensures |r| == |s| / 2
  {
    if |s| < 2 then [] else [s[..2]] + Pairs(s[2..])
  }

  /** int(pair, 16) of each pair; None for the first that is not hex. */
  function HexValues(pairs: seq<string>): (r: Option<seq<int>>)
    ensures r.Some? ==> |r.value| == |pairs|
  {
    if pairs == [] then Some([])
    else match (PyInt(pairs[0], 16), HexValues(pairs[1..]))
      case (Some(v), Some(vs)) => Some([v] + vs)
      case _ => None
  }

  /**
   * The pair values unpacked into exactly six names: None is the
   * ValueError of a wrong number of pairs or of a pair that is not hex.
   */
  function Octets(s: string): (r: Option<seq<int>>)
    ensures r.Some? ==> |r.value| == 6
  {
    if |Pairs(s)| != 6 then None else HexValues(Pairs(s))
  }

  /**
   * GetTimestamp: '' is 0; a missing field (None) is a TypeError; six
   * octets go to FromTimeParts with 1970 added to the year and 1 to the
   * month, in the zone of the preprocessing object.
   */
  function GetTimestamp(raw: Option<string>, zone: string, fromTimeParts: TimePartsFn): (r: Result<int>)
    ensures r.Err? ==> r.exc == TypeError || r.exc == ValueError
  {
    if raw.None? then Err(TypeError)
    else if raw.value == "" then Ok(0)
    else match Octets(raw.value)
      case None => Err(ValueError)
      case Some(o) => Ok(fromTimeParts(TimeParts(o[0] + 1970, o[1] + 1, o[2], o[3], o[4], o[5], 0, zone)))
  }

  /** int(value) of a column: TypeError for None, ValueError for a non-number. */
  function IntOf(v: Option<string>): (r: Result<int>)
    ensures r.Err? ==> (r.exc == TypeError <==> v.None?) && (r.exc == TypeError || r.exc == ValueError)
  {
    if v.None? then Err(TypeError)
    else match PyInt(v.value, 10)
      case None => Err(ValueError)
      case Some(n) => Ok(n)
  }

  /** A code column checked against lo..hi: Ok(false) also for a TypeError. */
  function CodeInRange(v: Option<string>, lo: int, hi: int): Result<bool>
  {
    match IntOf(v)
      case Err(e) => if e == TypeError then Ok(false) else Err(e)
      case Ok(n) => Ok(lo <= n <= hi)
  }

  /**
   * VerifyRow: a time field that does not decode, or decodes to 0, rejects
   * the row; so do a missing or out-of-range event or category, but a
   * non-numeric one raises ValueError, which is not caught.
   */
  function VerifyRow(row: Row, zone: string, fromTimeParts: TimePartsFn): Result<bool>
    requires HasColumns(row)
  {
    var ts := GetTimestamp(row["time"], zone, fromTimeParts);
    if ts.Err? || ts.value == 0 then Ok(false)
    else match CodeInRange(row["event"], 1, 77)
      case Err(e) => Err(e)
      case Ok(ok) => if !ok then Ok(false) else CodeInRange(row["cat"], 1, 4)
  }

  /** The event of a row: its time and the whole row as attributes. */
  datatype SymantecEvent = SymantecEvent(timestamp: int, attributes: Row)

  /** ParseRow: exactly one event, or the exception of the time field. */
  function ParseRow(row: Row, zone: string, fromTimeParts: TimePartsFn): (r: Result<SymantecEvent>)
    requires HasColumns(row)
    ensures r.Ok? <==> GetTimestamp(row["time"], zone, fromTimeParts).Ok?
    ensures r.Ok? ==> r.value.timestamp == GetTimestamp(row["time"], zone, fromTimeParts).value
    ensures r.Ok? ==> r.value.attributes == row
  {
    match GetTimestamp(row["time"], zone, fromTimeParts)
      case Err(e) => Err(e)
      case Ok(t) => Ok(SymantecEvent(t, row))
  }

  // ---------------------------------------------------------------------
  // Properties

  /** An empty time field is the timestamp 0. */
  lemma EmptyTimeIsZero(zone: string, fromTimeParts: TimePartsFn)
    ensures GetTimestamp(Some(""), zone, fromTimeParts) == Ok(0)
  {
  }

  /** The time field as the log writes it: two hex digits per octet. */
  function HexOctets(b: seq<byte>, upper: bool): (r: string)
    ensures |r| == 2 * |b|
  {
    if b == [] then [] else [HexDigit(b[0] / 16, upper), HexDigit(b[0] % 16, upper)] + HexOctets(b[1..], upper)
  }

  /** A two-digit hex string has the value of its digits. */
  lemma DigitsPair(c0: char, c1: char)
    requires DigitValue(c0) < 16 && DigitValue(c1) < 16
    ensures AllDigits([c0, c1], 16)
    ensures DigitsValue([c0, c1], 16) == DigitValue(c0) * 16 + DigitValue(c1)
  {
    assert [c0, c1][..1] == [c0] && [c0][..0] == [];
    assert DigitsValue([c0], 16) == DigitValue(c0);
  }

  /** The two digits of a byte read back as that byte. */
  lemma HexByte(n: byte, upper: bool)
    ensures PyInt([HexDigit(n / 16, upper), HexDigit(n % 16, upper)], 16) == Some(n)
  {
    var t := [HexDigit(n / 16, upper), HexDigit(n % 16, upper)];
    DigitsPair(t[0], t[1]);
    PyIntDigits(t, 16);
    assert DigitsValue(t, 16) == n;
  }

  /** A decodable time field is the conversion of its octets. */
  lemma TimeOfOctets(s: string, o: seq<int>, zone: string, fromTimeParts: TimePartsFn)
    requires s != "" && Octets(s) == Some(o)
    ensures GetTimestamp(Some(s), zone, fromTimeParts)
      == Ok(fromTimeParts(TimeParts(o[0] + 1970, o[1] + 1, o[2], o[3], o[4], o[5], 0, zone)))
  {
  }

  lemma PairsCons(h: string, rest: string)
    requires |h| == 2
    ensures Pairs(h + rest) == [h] + Pairs(rest)
  {
    assert (h + rest)[..2] == h && (h + rest)[2..] == rest;
  }

  lemma HexValuesCons(p: string, ps: seq<string>, v: int, vs: seq<int>)
    requires PyInt(p, 16) == Some(v) && HexValues(ps) == Some(vs)
    ensures HexValues([p] + ps) == Some([v] + vs)
  {
    assert ([p] + ps)[0] == p && ([p] + ps)[1..] == ps;
  }

  /** Decoding the pairs inverts the encoding. */
  lemma {:induction false} HexDecode(b: seq<byte>, upper: bool)
    ensures HexValues(Pairs(HexOctets(b, upper))) == Some(b)
  {
    if b != [] {
      var h := HeadPair(b, upper);
      HexDecode(b[1..], upper);
      assert b == [b[0]] + b[1..];
      HexDecodeStep(h, HexOctets(b[1..], upper), b[0], b[1..]);
    }
  }

  /** The first two digits of the encoding, and their value. */
  lemma HeadPair(b: seq<byte>, upper: bool) returns (h: string)
    requires b != []
    ensures |h| == 2 && HexOctets(b, upper) == h + HexOctets(b[1..], upper)
    ensures PyInt(h, 16) == Some(b[0] as int)
  {
    h := [HexDigit(b[0] / 16, upper), HexDigit(b[0] % 16, upper)];
    HexByte(b[0], upper);
  }

  lemma HexDecodeStep(h: string, rest: string, v: int, vs: seq<int>)
    requires |h| == 2 && PyInt(h, 16) == Some(v) && HexValues(Pairs(rest)) == Some(vs)
    ensures HexValues(Pairs(h + rest)) == Some([v] + vs)
  {
    PairsCons(h, rest);
    HexValuesCons(h, Pairs(rest), v, vs);
  }


  /**
   * The time field written as six hex octets decodes back to the date and
   * time they encode: the decoding inverts the format of the log.
   */
  lemma TimeRoundTrip(b: seq<byte>, upper: bool, zone: string, fromTimeParts: TimePartsFn)
    requires |b| == 6
    ensures GetTimestamp(Some(HexOctets(b, upper)), zone, fromTimeParts)
      == Ok(fromTimeParts(TimeParts(b[0] as int + 1970, b[1] as int + 1, b[2], b[3], b[4], b[5], 0, zone)))
  {
    var s := HexOctets(b, upper);
    assert |Pairs(s)| == 6;
    HexDecode(b, upper);
    var o: seq<int> := b;
    assert s != "" && Octets(s) == Some(o);
    TimeOfOctets(s, o, zone, fromTimeParts);
  }

  lemma ExampleEncoding(b: seq<byte>, s: string)
    requires b == [32, 10, 19, 8, 1, 34] && s == "200A13080122"
    ensures HexOctets(b, true) == s
  {
    assert HexOctets(b[5..], true) == "22";
    assert HexOctets(b[4..], true) == "0122";
    assert HexOctets(b[3..], true) == "080122";
    assert HexOctets(b[2..], true) == "13080122";
    assert HexOctets(b[1..], true) == "0A13080122";
  }

  /** The documented example: 200A13080122 is 2002-11-19 08:01:34. */
  lemma DocumentedExample(s: string, zone: string, fromTimeParts: TimePartsFn)
    requires s == "200A13080122"
    ensures GetTimestamp(Some(s), zone, fromTimeParts)
      == Ok(fromTimeParts(TimeParts(2002, 11, 19, 8, 1, 34, 0, zone)))
  {
    var b: seq<byte> := [32, 10, 19, 8, 1, 34];
    assert TimeParts(b[0] as int + 1970, b[1] as int + 1, b[2], b[3], b[4], b[5], 0, zone)
      == TimeParts(2002, 11, 19, 8, 1, 34, 0, zone);
    ExampleEncoding(b, s);
    TimeRoundTrip(b, true, zone, fromTimeParts);
  }

  /** A last odd character has no partner. */
  lemma {:induction false} PairsDropOdd(s: string, c: char)
    requires |s| % 2 == 0
    ensures Pairs(s + [c]) == Pairs(s)
    decreases |s|
  {
    if |s| >= 2 {
      assert (s + [c])[..2] == s[..2] && (s + [c])[2..] == s[2..] + [c];
      PairsDropOdd(s[2..], c);
    }
  }

  /**
   * Only 12 or 13 characters can decode (with 13 the last character has no
   * partner and is dropped); any other non-empty length is a ValueError.
   */
  lemma TimeLength(s: string, c: char, zone: string, fromTimeParts: TimePartsFn)
    ensures s != [] && |s| != 12 && |s| != 13 ==> GetTimestamp(Some(s), zone, fromTimeParts) == Err(ValueError)
    ensures |s| == 12 ==> GetTimestamp(Some(s + [c]), zone, fromTimeParts) == GetTimestamp(Some(s), zone, fromTimeParts)
  {
    if |s| == 12 {
      PairsDropOdd(s, c);
    }
  }

  /** VerifyRow accepts exactly the rows of the format. */
  lemma VerifyRowAccepts(row: Row, zone: string, fromTimeParts: TimePartsFn)
    requires HasColumns(row)
    ensures VerifyRow(row, zone, fromTimeParts) == Ok(true) <==>
      var ts, ev, cat := GetTimestamp(row["time"], zone, fromTimeParts), IntOf(row["event"]), IntOf(row["cat"]);
      ts.Ok? && ts.value != 0 && ev.Ok? && 1 <= ev.value <= 77 && cat.Ok? && 1 <= cat.value <= 4
  {
  }

  /**
   * VerifyRow raises exactly when the time is valid and then the event, or
   * with an event in range the category, is present but not a number.
   */
  lemma VerifyRowRaises(row: Row, zone: string, fromTimeParts: TimePartsFn)
    requires HasColumns(row)
    ensures VerifyRow(row, zone, fromTimeParts).Err? <==>
      var ts, ev, cat := GetTimestamp(row["time"], zone, fromTimeParts), IntOf(row["event"]), IntOf(row["cat"]);
      ts.Ok? && ts.value != 0 &&
      (ev == Err(ValueError) || (ev.Ok? && 1 <= ev.value <= 77 && cat == Err(ValueError)))
    ensures VerifyRow(row, zone, fromTimeParts).Err? ==> VerifyRow(row, zone, fromTimeParts).exc == ValueError
  {
  }

  /** An accepted row parses into one event with a non-zero time. */
  lemma AcceptedRowParses(row: Row, zone: string, fromTimeParts: TimePartsFn)
    requires HasColumns(row) && VerifyRow(row, zone, fromTimeParts) == Ok(true)
    ensures ParseRow(row, zone, fromTimeParts).Ok?
    ensures ParseRow(row, zone, fromTimeParts).value.timestamp != 0
  {
  }
}
