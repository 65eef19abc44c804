/**
 * Shared vocabulary of the plaso model: bytes, optional values, the Python
 * exceptions the modelled code raises, fixed-width integer readers and the
 * few Python string and integer conversions whose exact behaviour the
 * parsers depend on.
 */
module Common {

  type byte = x: int | 0 <= x < 256

  datatype Option<T> = None | Some(value: T)

  /** The Python exception classes that leave a modelled operation. */
  datatype Exc =
    | RuntimeError
    | ValueError
    | KeyError
    | TypeError
    | AttributeError
    | IOError
    | FieldError          // construct: a structure read past the end of its data
    | UnableToParseFile
    | WrongPlugin
    | WrongPlistPlugin
    | WrongBencodePlugin
    | WrongFormatter
    | NoFormatterFound
    | CollectorError
    | AccessError
    | BackEndError
    | IndexError
    | UnboundLocalError   // a local read before any assignment reached it

  datatype Result<T> = Ok(value: T) | Err(exc: Exc)

  /** What a generator yields, and the exception that ended it if one did. */
  datatype Yielded<E> = Yielded(events: seq<E>, error: Option<Exc>)

  /** Events yielded before the rest of a generator. */
  function Then<E>(first: seq<E>, rest: Yielded<E>): Yielded<E>
  {
    Yielded(first + rest.events, rest.error)
  }

  /** Yielding a and then b before the rest is yielding a + b before it. */
  lemma ThenThen<E>(a: seq<E>, b: seq<E>, y: Yielded<E>)
    ensures Then(a + b, y) == Then(a, Then(b, y))
  {
    assert (a + b) + y.events == a + (b + y.events);
  }

  lemma ThenNothing<E>(y: Yielded<E>)
    ensures Then([], y) == y
  {
    assert [] + y.events == y.events;
  }

  // ---------------------------------------------------------------------
  // Fixed-width unsigned integers

  function Pow256(n: nat): (r: nat)
    ensures r >= 1
  {
    if n == 0 then 1 else 256 * Pow256(n - 1)
  }

  /** Value of a little-endian byte string. */
  function LE(s: seq<byte>): nat
  {
    if s == [] then 0 else s[0] + 256 * LE(s[1..])
  }

  /** The n-byte little-endian value at offset at of b, read by index. */
  function LEAt(b: seq<byte>, at: nat, n: nat): nat
    requires at + n <= |b|
    decreases n
  {
    if n == 0 then 0 else b[at] + 256 * LEAt(b, at + 1, n - 1)
  }

  lemma {:induction false} LEAtIsLE(b: seq<byte>, at: nat, n: nat)
    requires at + n <= |b|
    ensures LEAt(b, at, n) == LE(b[at..at + n])
    decreases n
  {
    if n > 0 {
      LEAtIsLE(b, at + 1, n - 1);
      assert b[at..at + n][1..] == b[at + 1..at + n];
    }
  }

  /** Reading within a slice reads the same bytes of the whole. */
  lemma {:induction false} LEAtSlice(b: seq<byte>, lo: nat, hi: nat, at: nat, n: nat)
    requires lo <= hi <= |b| && at + n <= hi - lo
    ensures LEAt(b[lo..hi], at, n) == LEAt(b, lo + at, n)
    decreases n
  {
    if n > 0 {
      LEAtSlice(b, lo, hi, at + 1, n - 1);
    }
  }

  /** Value of a big-endian byte string. */
  function BE(s: seq<byte>): nat
  {
    if s == [] then 0 else 256 * BE(s[..|s| - 1]) + s[|s| - 1]
  }

  lemma {:induction false} LEBound(s: seq<byte>)
    ensures LE(s) < Pow256(|s|)
  {
    if s != [] {
      LEBound(s[1..]);
    }
  }

  lemma {:induction false} BEBound(s: seq<byte>)
    ensures BE(s) < Pow256(|s|)
  {
    if s != [] {
      BEBound(s[..|s| - 1]);
    }
  }

  /**
   * An n-byte little-endian unsigned integer at offset off of b, or None
   * when the bytes are not all there (construct's short-read error).
   */
  function ReadLE(b: seq<byte>, off: int, n: nat): (r: Option<nat>)
    ensures r.Some? <==> 0 <= off && off + n <= |b|
    ensures r.Some? ==> r.value < Pow256(n)
  {
    if 0 <= off && off + n <= |b| then
      LEAtIsLE(b, off, n);
      LEBound(b[off..off + n]);
      Some(LEAt(b, off, n))
    else None
  }

  /** The big-endian counterpart of ReadLE. */
  function ReadBE(b: seq<byte>, off: int, n: nat): (r: Option<nat>)
    ensures r.Some? <==> 0 <= off && off + n <= |b|
    ensures r.Some? ==> r.value < Pow256(n)
  {
    if 0 <= off && off + n <= |b| then
      BEBound(b[off..off + n]);
      Some(BE(b[off..off + n]))
    else None
  }

  /** The little-endian encoding of v in n bytes (for concrete examples). */
  function EncodeLE(v: nat, n: nat): (r: seq<byte>)
    ensures |r| == n
  {
    if n == 0 then [] else [v % 256] + EncodeLE(v / 256, n - 1)
  }

  lemma {:induction false} LEOfEncodeLE(v: nat, n: nat)
    requires v < Pow256(n)
    ensures LE(EncodeLE(v, n)) == v
  {
    if n > 0 {
      var r := EncodeLE(v, n);
      assert r[1..] == EncodeLE(v / 256, n - 1);
      LEOfEncodeLE(v / 256, n - 1);
    }
  }

  /** The big-endian encoding of v in n bytes. */
  function EncodeBE(v: nat, n: nat): (r: seq<byte>)
    ensures |r| == n
  {
    if n == 0 then [] else EncodeBE(v / 256, n - 1) + [v % 256]
  }

  lemma {:induction false} BEOfEncodeBE(v: nat, n: nat)
    requires v < Pow256(n)
    ensures BE(EncodeBE(v, n)) == v
  {
    if n > 0 {
      var r := EncodeBE(v, n);
      assert r[..|r| - 1] == EncodeBE(v / 256, n - 1);
      BEOfEncodeBE(v / 256, n - 1);
    }
  }

  // ---------------------------------------------------------------------
  // Python slicing

  /** Python's normalisation of a slice bound against a length n. */
  function SliceBound(i: int, n: nat): (r: nat)
    ensures r <= n
  {
    if i < 0 then (if i + n < 0 then 0 else i + n) else if i > n then n else i
  }

  /** s[i:j] with Python semantics: negative bounds count from the end, and out-of-range bounds clamp. */
  function PySlice<T>(s: seq<T>, i: int, j: int): (r: seq<T>)
    ensures |r| <= |s|
    ensures 0 <= i <= j <= |s| ==> r == s[i..j]
    ensures 0 <= i <= |s| <= j ==> r == s[i..]
    ensures |s| <= i ==> r == []
    ensures 0 <= i <= j ==> |r| <= j - i
    ensures 0 <= i < j ==> (|r| == j - i <==> j <= |s|)
  {
    var a := SliceBound(i, |s|);
    var b := SliceBound(j, |s|);
    if a < b then s[a..b] else []
  }

  /** s[:-1]: everything but the last element, [] for []. */
  function DropLast<T>(s: seq<T>): (r: seq<T>)
    ensures s != [] ==> r + [s[|s| - 1]] == s
    ensures s == [] ==> r == []
  {
    if s == [] then [] else s[..|s| - 1]
  }

  // ---------------------------------------------------------------------
  // Python strings

  predicate IsSpace(c: char)
  {
    c == ' ' || c == '\t' || c == '\n' || c == '\r' || c == '\U{0B}' || c == '\U{0C}'
  }

  function LStrip(s: string): (r: string)
    ensures |r| <= |s| && r == s[|s| - |r|..]
    ensures r == [] || !IsSpace(r[0])
  {
    if s != [] && IsSpace(s[0]) then LStrip(s[1..]) else s
  }

  function RStrip(s: string): (r: string)
    ensures |r| <= |s| && r == s[..|r|]
    ensures r == [] || !IsSpace(r[|r| - 1])
  {
    if s != [] && IsSpace(s[|s| - 1]) then RStrip(s[..|s| - 1]) else s
  }

  /** str.strip() with no argument. */
  function Strip(s: string): (r: string)
    ensures r == [] || (!IsSpace(r[0]) && !IsSpace(r[|r| - 1]))
    ensures |r| <= |s|
  {
    RStrip(LStrip(s))
  }

  lemma StripNoSpace(s: string)
    requires s == [] || (!IsSpace(s[0]) && !IsSpace(s[|s| - 1]))
    ensures Strip(s) == s
  {
    assert LStrip(s) == s;
    assert RStrip(s) == s;
  }

  predicate StartsWith(s: string, p: string)
  {
    |p| <= |s| && s[..|p|] == p
  }

  predicate EndsWith(s: string, p: string)
  {
    |p| <= |s| && s[|s| - |p|..] == p
  }

  /** Does p occur in s at position k? */
  predicate At(s: string, p: string, k: int)
  {
    0 <= k && k + |p| <= |s| && s[k..k + |p|] == p
  }

  /** str.find: the first position where p occurs in s. */
  function Find(s: string, p: string): (r: Option<nat>)
    ensures r.Some? ==> At(s, p, r.value) && forall k :: 0 <= k < r.value ==> !At(s, p, k)
    ensures r.None? ==> forall k :: 0 <= k <= |s| - |p| ==> !At(s, p, k)
  {
    FindFrom(s, p, 0)
  }

  function FindFrom(s: string, p: string, from: nat): (r: Option<nat>)
    requires forall k :: 0 <= k < from ==> !At(s, p, k)
    ensures r.Some? ==> At(s, p, r.value) && forall k :: 0 <= k < r.value ==> !At(s, p, k)
    ensures r.None? ==> forall k :: 0 <= k <= |s| - |p| ==> !At(s, p, k)
    decreases |s| - from + 1
  {
    if from + |p| > |s| then None
    else if At(s, p, from) then Some(from)
    else FindFrom(s, p, from + 1)
  }

  /** str.rfind: the last position where p occurs in s. */
  function RFind(s: string, p: string): (r: Option<nat>)
    ensures r.Some? ==> At(s, p, r.value) && forall k :: r.value < k <= |s| - |p| ==> !At(s, p, k)
    ensures r.None? ==> forall k :: 0 <= k <= |s| - |p| ==> !At(s, p, k)
  {
    if |p| > |s| then None else RFindFrom(s, p, |s| - |p|)
  }

  function RFindFrom(s: string, p: string, from: int): (r: Option<nat>)
    requires from <= |s| - |p|
    requires forall k :: from < k <= |s| - |p| ==> !At(s, p, k)
    ensures r.Some? ==> At(s, p, r.value) && forall k :: r.value < k <= |s| - |p| ==> !At(s, p, k)
    ensures r.None? ==> forall k :: 0 <= k <= |s| - |p| ==> !At(s, p, k)
    decreases from + 1
  {
    if from < 0 then None
    else if At(s, p, from) then Some(from)
    else RFindFrom(s, p, from - 1)
  }

  predicate Contains(s: string, p: string)
  {
    Find(s, p).Some?
  }

  /** str.partition: (head, sep, tail), or (s, "", "") when sep does not occur; an empty sep raises ValueError, and no caller passes one. */
  function Partition(s: string, sep: string): (r: (string, string, string))
    requires sep != []
    ensures r.0 + r.1 + r.2 == s
    ensures r.1 == sep || (r.1 == "" && r.2 == "" && r.0 == s)
    ensures sep != [] && Contains(s, sep) ==> r.1 == sep && !Contains(r.0, sep)
    ensures !Contains(s, sep) ==> r == (s, "", "")
  {
    match Find(s, sep)
    case None => (s, "", "")
    case Some(k) =>
      assert s == s[..k] + sep + s[k + |sep|..];
      NoEarlierOccurrence(s, sep, k);
      (s[..k], sep, s[k + |sep|..])
  }

  /** Partition at the first occurrence of sep. */
  lemma PartitionFirst(s: string, sep: string, k: nat)
    requires sep != [] && At(s, sep, k) && forall j :: 0 <= j < k ==> !At(s, sep, j)
    ensures Partition(s, sep) == (s[..k], sep, s[k + |sep|..])
  {
    var f := Find(s, sep);
    assert f == Some(k);
  }

  /** No character of s is c. */
  predicate Lacks(s: string, c: char)
  {
    forall i :: 0 <= i < |s| ==> s[i] != c
  }

  /** The first occurrence of key in s is at k. */
  predicate FirstAt(s: string, key: string, k: nat)
  {
    At(s, key, k) && forall j :: 0 <= j < k ==> !At(s, key, j)
  }

  /** A character pre lacks occurs first right after pre. */
  lemma FirstAtChar(pre: string, c: char, line: string)
    requires Lacks(pre, c)
    ensures FirstAt(pre + [c] + line, [c], |pre|)
  {
    var s := pre + [c] + line;
    forall j | 0 <= j < |pre| ensures !At(s, [c], j) {
      assert s[j..j + 1] == [pre[j]];
    }
    assert s[|pre|..|pre| + 1] == [c];
  }

  /** What follows the first occurrence of key in pre + key + line. */
  lemma AfterKey(pre: string, key: string, line: string)
    requires key != [] && FirstAt(pre + key + line, key, |pre|)
    ensures Partition(pre + key + line, key).2 == line
  {
    var s := pre + key + line;
    PartitionFirst(s, key, |pre|);
    assert s[|pre| + |key|..] == line;
  }

  /** value + rest cut at a stop character that value lacks and rest starts with (or rest is empty). */
  lemma BeforeStop(value: string, rest: string, stop: char)
    requires Lacks(value, stop) && (rest == [] || rest[0] == stop)
    ensures Partition(value + rest, [stop]).0 == value
  {
    var line := value + rest;
    forall j | 0 <= j < |value| ensures !At(line, [stop], j) {
      assert line[j] == value[j];
    }
    if rest == [] {
      assert line == value;
      assert !Contains(line, [stop]);
    } else {
      assert At(line, [stop], |value|) by { assert line[|value|..|value| + 1] == [rest[0]]; }
      PartitionFirst(line, [stop], |value|);
      assert line[..|value|] == value;
    }
  }

  /** The last occurrence of p in s is at k. */
  lemma RFindLast(s: string, p: string, k: nat)
    requires At(s, p, k) && forall j :: k < j <= |s| - |p| ==> !At(s, p, j)
    ensures RFind(s, p) == Some(k)
  {
    var f := RFind(s, p);
    assert f.Some?;
  }

  /** s.rpartition(sep)[0]: what precedes the last sep, or '' when there is none. */
  function RPartitionHead(s: string, sep: string): (r: string)
    ensures |r| <= |s|
  {
    match RFind(s, sep)
      case None => []
      case Some(k) => s[..k]
  }

  /** What precedes the last c when what follows it lacks c. */
  lemma BeforeLastChar(inner: string, c: char, tail: string)
    requires Lacks(tail, c)
    ensures RPartitionHead(inner + [c] + tail, [c]) == inner
  {
    var line := inner + [c] + tail;
    forall j | |inner| < j <= |line| - 1 ensures !At(line, [c], j) {
      assert line[j..j + 1] == [tail[j - |inner| - 1]];
    }
    assert line[|inner|..|inner| + 1] == [c];
    RFindLast(line, [c], |inner|);
    assert line[..|inner|] == inner;
  }

  /** Without c the head is ''. */
  lemma NoCharHead(s: string, c: char)
    requires Lacks(s, c)
    ensures RPartitionHead(s, [c]) == []
  {
    forall k | 0 <= k < |s| ensures !At(s, [c], k) {
      assert s[k..k + 1] == [s[k]];
    }
  }

  lemma NoEarlierOccurrence(s: string, p: string, k: nat)
    requires k <= |s|
    requires p != [] ==> forall j :: 0 <= j < k ==> !At(s, p, j)
    requires At(s, p, k)
    ensures p != [] ==> !Contains(s[..k], p)
  {
    if p != [] && Contains(s[..k], p) {
      var j := Find(s[..k], p).value;
      assert s[..k][j..j + |p|] == s[j..j + |p|];
      assert At(s, p, j);
    }
  }

  /** str.split(sep) for a non-empty separator. */
  function Split(s: string, sep: string): (r: seq<string>)
    requires sep != []
    ensures |r| >= 1
    ensures forall i :: 0 <= i < |r| ==> !Contains(r[i], sep)
    decreases |s|
  {
    match Find(s, sep)
    case None => [s]
    case Some(k) =>
      NoEarlierOccurrence(s, sep, k);
      [s[..k]] + Split(s[k + |sep|..], sep)
  }

  /** Splitting at a character the first part lacks peels that part off. */
  lemma SplitFirst(a: string, c: char, b: string)
    requires Lacks(a, c)
    ensures Split(a + [c] + b, [c]) == [a] + Split(b, [c])
  {
    var s := a + [c] + b;
    FirstAtChar(a, c, b);
    assert Find(s, [c]) == Some(|a|);
    assert s[..|a|] == a && s[|a| + 1..] == b;
  }

  /** A string without c splits into itself. */
  lemma SplitNone(a: string, c: char)
    requires Lacks(a, c)
    ensures Split(a, [c]) == [a]
  {
    forall k | 0 <= k < |a| ensures !At(a, [c], k) {
      assert a[k..k + 1] == [a[k]];
    }
  }

  /** The first part of a + b, when a lacks c and b is empty or starts with c. */
  lemma SplitHead(a: string, c: char, b: string)
    requires Lacks(a, c) && (b == [] || b[0] == c)
    ensures Split(a + b, [c])[0] == a
  {
    if b == [] {
      assert a + b == a;
      SplitNone(a, c);
    } else {
      assert a + b == a + [c] + b[1..];
      SplitFirst(a, c, b[1..]);
    }
  }

  /** sep.join(parts) */
  function Join(parts: seq<string>, sep: string): string
  {
    if parts == [] then ""
    else if |parts| == 1 then parts[0]
    else parts[0] + sep + Join(parts[1..], sep)
  }

  lemma {:induction false} JoinSplit(s: string, sep: string)
    requires sep != []
    ensures Join(Split(s, sep), sep) == s
    decreases |s|
  {
    match Find(s, sep)
    case None =>
    case Some(k) =>
      var rest := s[k + |sep|..];
      var tail := Split(rest, sep);
      assert Split(s, sep) == [s[..k]] + tail;
      JoinSplit(rest, sep);
      JoinCons(s[..k], tail, sep);
      AroundOccurrence(s, sep, k);
  }

  /** Joining one part more puts it and a separator in front. */
  lemma JoinCons(a: string, tail: seq<string>, sep: string)
    requires tail != []
    ensures Join([a] + tail, sep) == a + sep + Join(tail, sep)
  {
    assert ([a] + tail)[1..] == tail;
  }

  /** A text is what precedes an occurrence, the occurrence and what follows it. */
  lemma AroundOccurrence(s: string, p: string, k: nat)
    requires At(s, p, k)
    ensures s == s[..k] + p + s[k + |p|..]
  {
    assert s == s[..k] + s[k..k + |p|] + s[k + |p|..];
  }

  /** Parts that lack c, joined by c, split back into themselves. */
  lemma {:induction false} SplitJoin(parts: seq<string>, c: char)
    requires parts != [] && forall i :: 0 <= i < |parts| ==> Lacks(parts[i], c)
    ensures Split(Join(parts, [c]), [c]) == parts
    decreases |parts|
  {
    if |parts| == 1 {
      SplitNone(parts[0], c);
    } else {
      SplitJoin(parts[1..], c);
      SplitFirst(parts[0], c, Join(parts[1..], [c]));
    }
  }

  /** Every occurrence of character c replaced by d. */
  function ReplaceChar(s: string, c: char, d: char): (r: string)
    ensures |r| == |s|
    ensures forall i :: 0 <= i < |s| ==> r[i] == (if s[i] == c then d else s[i])
  {
    if s == [] then [] else [if s[0] == c then d else s[0]] + ReplaceChar(s[1..], c, d)
  }

  /** str.replace(pat, rep) for a non-empty pat: left to right, non-overlapping. */
  function Replace(s: string, pat: string, rep: string): (r: string)
    requires pat != []
    decreases |s|
  {
    match Find(s, pat)
    case None => s
    case Some(k) => s[..k] + rep + Replace(s[k + |pat|..], pat, rep)
  }

  /** A string without sep, a space, and another string without sep: sep, which has no space, does not occur. */
  lemma NoSepAround(a: string, b: string, sep: string)
    requires sep != [] && Lacks(sep, ' ') && !Contains(a, sep) && !Contains(b, sep)
    ensures !Contains(a + " " + b, sep)
  {
    var s := a + " " + b;
    var n := |sep|;
    forall j | 0 <= j <= |s| - n
      ensures !At(s, sep, j)
    {
      if j + n <= |a| {
        assert s[j..j + n] == a[j..j + n];
        assert !At(a, sep, j);
      } else if j > |a| {
        assert s[j..j + n] == b[j - |a| - 1..j - |a| - 1 + n];
        assert !At(b, sep, j - |a| - 1);
      } else {
        assert s[|a|] == ' ' && sep[|a| - j] != ' ';
      }
    }
  }

  /** Replacing every sep by a space leaves no sep when sep has no space. */
  lemma {:induction false} NoSepLeft(s: string, sep: string)
    requires sep != [] && Lacks(sep, ' ')
    ensures !Contains(Replace(s, sep, " "), sep)
    decreases |s|
  {
    match Find(s, sep)
    case None =>
    case Some(k) =>
      NoEarlierOccurrence(s, sep, k);
      NoSepLeft(s[k + |sep|..], sep);
      NoSepAround(s[..k], Replace(s[k + |sep|..], sep, " "), sep);
  }

  /** A string in which the one-character string [c] does not occur lacks c. */
  lemma NotContainsChar(s: string, c: char)
    requires !Contains(s, [c])
    ensures Lacks(s, c)
  {
    forall i | 0 <= i < |s| ensures s[i] != c {
      assert !At(s, [c], i);
      assert s[i..i + 1] == [s[i]];
    }
  }

  function LowerChar(c: char): char
  {
    if 'A' <= c <= 'Z' then (c as int + 32) as char else c
  }

  /** str.lower() on ASCII letters. */
  function Lower(s: string): (r: string)
    ensures |r| == |s|
    ensures forall i :: 0 <= i < |s| ==> r[i] == LowerChar(s[i])
  {
    if s == [] then [] else [LowerChar(s[0])] + Lower(s[1..])
  }

  // ---------------------------------------------------------------------
  // Python int() and str() on integers

  /** The value of c as a digit, 36 when it is no digit at all. */
  function DigitValue(c: char): (r: nat)
    ensures r <= 36
  {
    if '0' <= c <= '9' then c as int - '0' as int
    else if 'a' <= c <= 'z' then c as int - 'a' as int + 10
    else if 'A' <= c <= 'Z' then c as int - 'A' as int + 10
    else 36
  }

  predicate AllDigits(s: string, base: nat)
  {
    forall i :: 0 <= i < |s| ==> DigitValue(s[i]) < base
  }

  /** Value of a digit string, most significant digit first. */
  function DigitsValue(s: string, base: nat): nat
    requires AllDigits(s, base)
  {
    if s == [] then 0 else DigitsValue(s[..|s| - 1], base) * base + DigitValue(s[|s| - 1])
  }

  /**
   * Python 2 int(s, base): surrounding whitespace is ignored, one sign is
   * allowed, base 16 also allows a 0x prefix, and at least one digit must
   * remain. None stands for the ValueError.
   */
  function PyInt(s: string, base: nat): (r: Option<int>)
    requires 2 <= base <= 36
    ensures r.Some? ==> Strip(s) != []
  {
    var t := Strip(s);
    var neg := t != [] && t[0] == '-';
    var u := if t != [] && (t[0] == '-' || t[0] == '+') then t[1..] else t;
    var d := if base == 16 && |u| >= 2 && u[0] == '0' && (u[1] == 'x' || u[1] == 'X') then u[2..] else u;
    if d != [] && AllDigits(d, base) then
      Some(if neg then -(DigitsValue(d, base) as int) else DigitsValue(d, base))
    else None
  }

  function DigitChar(d: nat): (c: char)
    requires d < 10
    ensures DigitValue(c) == d
  {
    ('0' as int + d) as char
  }

  /** str(n) for a non-negative integer. */
  function NatToStr(n: nat): (r: string)
    ensures r != [] && AllDigits(r, 10) && DigitsValue(r, 10) == n
    ensures forall i :: 0 <= i < |r| ==> '0' <= r[i] <= '9'
    ensures r[0] == '0' ==> n == 0
  {
    if n < 10 then [DigitChar(n)]
    else
      var r := NatToStr(n / 10) + [DigitChar(n % 10)];
      assert r[..|r| - 1] == NatToStr(n / 10);
      r
  }

  /** str(n) for an integer. */
  function IntToStr(n: int): (r: string)
  {
    if n < 0 then "-" + NatToStr(-n) else NatToStr(n)
  }

  /** The decimal text of an integer reads back as that integer. */
  lemma IntToStrRoundTrip(n: int)
    ensures PyInt(IntToStr(n), 10) == Some(n)
  {
    if n < 0 {
      PyIntNegative(NatToStr(-n));
    } else {
      PyIntDigits(NatToStr(n), 10);
    }
  }

  /** A minus sign before decimal digits negates their value. */
  lemma PyIntNegative(digits: string)
    requires digits != [] && AllDigits(digits, 10)
    ensures PyInt("-" + digits, 10) == Some(-(DigitsValue(digits, 10) as int))
  {
    var s := "-" + digits;
    assert DigitValue(digits[|digits| - 1]) < 10;
    assert s[|s| - 1] == digits[|digits| - 1];
    StripNoSpace(s);
    assert s[1..] == digits;
  }

  /** A bare digit string (no space, no sign, no prefix) reads as its value. */
  lemma PyIntDigits(s: string, base: nat)
    requires 2 <= base <= 36 && s != [] && AllDigits(s, base)
    ensures PyInt(s, base) == Some(DigitsValue(s, base) as int)
  {
    assert DigitValue(s[0]) < base && DigitValue(s[|s| - 1]) < base;
    DigitIsPlain(s[0]);
    DigitIsPlain(s[|s| - 1]);
    if base == 16 && |s| >= 2 {
      assert DigitValue(s[1]) < 16;
      DigitIsPlain(s[1]);
    }
    PyIntUnsigned(s, base);
  }

  /** Text with no surrounding space, no sign and no 0x prefix reads as its digits. */
  lemma PyIntUnsigned(s: string, base: nat)
    requires 2 <= base <= 36 && s != [] && !IsSpace(s[0]) && !IsSpace(s[|s| - 1]) && s[0] != '-' && s[0] != '+'
    requires base == 16 && |s| >= 2 ==> s[1] != 'x' && s[1] != 'X'
    ensures PyInt(s, base) == if AllDigits(s, base) then Some(DigitsValue(s, base) as int) else None
  {
    StripNoSpace(s);
  }

  /** A digit is neither white space nor a sign, and a hexadecimal digit is not 'x'. */
  lemma DigitIsPlain(c: char)
    requires DigitValue(c) < 36
    ensures !IsSpace(c) && c != '-' && c != '+'
    ensures DigitValue(c) < 16 ==> c != 'x' && c != 'X'
  {
  }

  /** int("0x" + digits, 16): base 16 takes the prefix in either case. */
  lemma PyIntHexPrefix(h: string, x: char)
    requires h != [] && AllDigits(h, 16) && (x == 'x' || x == 'X')
    ensures PyInt(['0', x] + h, 16) == Some(DigitsValue(h, 16) as int)
  {
    var t := ['0', x] + h;
    assert t[0] == '0' && t[1] == x && t[2..] == h;
    assert DigitValue(h[|h| - 1]) < 16;
    DigitIsPlain(h[|h| - 1]);
    assert t[|t| - 1] == h[|h| - 1];
    PyIntPrefixed(t);
  }

  /** Text with no surrounding space that starts with 0x reads, in base 16, as the digits after it. */
  lemma PyIntPrefixed(t: string)
    requires |t| >= 3 && t[0] == '0' && (t[1] == 'x' || t[1] == 'X') && !IsSpace(t[|t| - 1])
    ensures PyInt(t, 16) == if AllDigits(t[2..], 16) then Some(DigitsValue(t[2..], 16) as int) else None
  {
    assert !IsSpace(t[0]);
    StripNoSpace(t);
  }

  /** A byte string as the Python 2 str it is read into. */
  function Chars(b: seq<byte>): (s: string)
    ensures |s| == |b| && forall i :: 0 <= i < |b| ==> s[i] as int == b[i]
  {
    seq(|b|, i requires 0 <= i < |b| => b[i] as char)
  }

  /** Two lower-case hexadecimal digits per byte: binascii.hexlify. */
  function Hexlify(b: seq<byte>): (r: string)
    ensures |r| == 2 * |b|
  {
    if b == [] then [] else [HexDigit(b[0] / 16, false), HexDigit(b[0] % 16, false)] + Hexlify(b[1..])
  }

  function HexDigit(d: nat, upper: bool): (c: char)
    requires d < 16
    ensures DigitValue(c) == d
  {
    if d < 10 then DigitChar(d)
    else if upper then ('A' as int + d - 10) as char
    else ('a' as int + d - 10) as char
  }

  /** The hexadecimal digits of n, most significant first, no leading zeros. */
  function NatToHex(n: nat, upper: bool): (r: string)
    ensures r != [] && AllDigits(r, 16) && DigitsValue(r, 16) == n
  {
    if n < 16 then [HexDigit(n, upper)]
    else
      var r := NatToHex(n / 16, upper) + [HexDigit(n % 16, upper)];
      assert r[..|r| - 1] == NatToHex(n / 16, upper);
      r
  }

  /** Left-pads s with c up to width characters (format's '0<width>' fill). */
  function PadLeft(s: string, width: nat, c: char): (r: string)
    ensures |r| == if |s| < width then width else |s|
    ensures r[|r| - |s|..] == s
  {
    if |s| < width then seq(width - |s|, _ => c) + s else s
  }

  /** Zeros in front of a digit string change neither its validity nor its value. */
  lemma ZeroPadded(s: string, width: nat)
    requires AllDigits(s, 16)
    ensures AllDigits(PadLeft(s, width, '0'), 16)
    ensures DigitsValue(PadLeft(s, width, '0'), 16) == DigitsValue(s, 16)
    ensures PadLeft(s, width, '0') != [] || s == []
  {
    if |s| < width {
      var z := seq(width - |s|, _ => '0');
      assert PadLeft(s, width, '0') == z + s;
      LeadingZeros(z, s);
    }
  }

  /** The value of zeros followed by s is the value of s. */
  lemma {:induction false} LeadingZeros(z: string, s: string)
    requires forall i :: 0 <= i < |z| ==> z[i] == '0'
    requires AllDigits(s, 16)
    ensures AllDigits(z + s, 16)
    ensures DigitsValue(z + s, 16) == DigitsValue(s, 16)
    decreases |s| + |z|
  {
    assert AllDigits(z + s, 16) by {
      forall i | 0 <= i < |z + s| ensures DigitValue((z + s)[i]) < 16 {
        if i >= |z| {
          assert (z + s)[i] == s[i - |z|];
        }
      }
    }
    if s == [] {
      assert z + s == z;
      if z != [] {
        LeadingZeros(z[..|z| - 1], []);
        assert z[..|z| - 1] + [] == z[..|z| - 1];
      }
    } else {
      var w := z + s;
      assert w[..|w| - 1] == z + s[..|s| - 1] && w[|w| - 1] == s[|s| - 1];
      LeadingZeros(z, s[..|s| - 1]);
    }
  }

  function Pow16(k: nat): (r: nat)
    ensures r >= 1
  {
    if k == 0 then 1 else 16 * Pow16(k - 1)
  }

  /** A number below 16^k has at most k hexadecimal digits. */
  lemma {:induction false} HexLength(n: nat, k: nat, upper: bool)
    requires k >= 1 && n < Pow16(k)
    ensures |NatToHex(n, upper)| <= k
  {
    if n >= 16 {
      assert Pow16(1) == 16;
      assert k >= 2;
      assert n / 16 < Pow16(k - 1);
      HexLength(n / 16, k - 1, upper);
    }
  }

  // ---------------------------------------------------------------------
  // File objects

  /** UBInt16 at byte at. */
  function U16(data: seq<byte>, at: nat): nat
    requires at + 2 <= |data|
  {
    BE(data[at..at + 2])
  }

  /** UBInt32 at byte at. */
  function U32(data: seq<byte>, at: nat): nat
    requires at + 4 <= |data|
  {
    BE(data[at..at + 4])
  }

  /** UBInt64 at byte at. */
  function U64(data: seq<byte>, at: nat): nat
    requires at + 8 <= |data|
  {
    BE(data[at..at + 8])
  }

  /**
   * Where the cursor is left when a construct read at p comes up short:
   * the short read has consumed everything up to the end of the data.
   */
  function Exhausted(data: seq<byte>, p: nat): (r: nat)
    ensures r >= p
  {
    if p < |data| then |data| else p
  }

  /** file_object.read(n): at most n bytes, fewer at the end of the data. */
  function ReadAt(data: seq<byte>, p: nat, n: nat): (r: (seq<byte>, nat))
    ensures |r.0| <= n && r.1 == p + |r.0|
    ensures p + n <= |data| ==> r.0 == data[p..p + n]
  {
    if p >= |data| then ([], p)
    else if p + n <= |data| then (data[p..p + n], p + n)
    else (data[p..], |data|)
  }

  /** Slicing a field out of bytes read at o gives the field read at o plus its offset. */
  lemma SliceInRead(data: seq<byte>, o: nat, n: nat, a: nat, b: nat)
    requires o + n <= |data| && a <= b <= n
    ensures data[o..o + n][a..b] == data[o + a..o + b]
  {
    var s := data[o..o + n];
    assert forall i :: 0 <= i < b - a ==> s[a..b][i] == data[o + a..o + b][i];
  }

  lemma U32InRead(data: seq<byte>, o: nat, n: nat, k: nat)
    requires o + n <= |data| && k + 4 <= n
    ensures U32(data[o..o + n], k) == U32(data, o + k)
  {
    SliceInRead(data, o, n, k, k + 4);
  }

  lemma U64InRead(data: seq<byte>, o: nat, n: nat, k: nat)
    requires o + n <= |data| && k + 8 <= n
    ensures U64(data[o..o + n], k) == U64(data, o + k)
  {
    SliceInRead(data, o, n, k, k + 8);
  }

  lemma U16InRead(data: seq<byte>, o: nat, n: nat, k: nat)
    requires o + n <= |data| && k + 2 <= n
    ensures U16(data[o..o + n], k) == U16(data, o + k)
  {
    SliceInRead(data, o, n, k, k + 2);
  }

  /** A file object: the bytes of a file and the cursor that seek, read and construct parsing move. */
  class FileObject {
    const data: seq<byte>
    var offset: nat

    constructor(data: seq<byte>)
      ensures this.data == data && offset == 0
    {
      this.data := data;
      offset := 0;
    }

    /** seek(p - tell(), os.SEEK_CUR), which is seek(p). */
    method Seek(p: nat)
      modifies this
      ensures offset == p
    {
      offset := p;
    }

    /** read(n) */
    method Read(n: nat) returns (b: seq<byte>)
      modifies this
      ensures (b, offset) == ReadAt(data, old(offset), n)
    {
      if offset >= |data| {
        b := [];
      } else if offset + n <= |data| {
        b := data[offset..offset + n];
        offset := offset + n;
      } else {
        b := data[offset..];
        offset := |data|;
      }
    }

    /** A construct field of n bytes: None when fewer remain, after reading what there is. */
    method ReadField(n: nat) returns (b: Option<seq<byte>>)
      requires n > 0 || offset <= |data|
      modifies this
      ensures b.Some? <==> old(offset) + n <= |data|
      ensures b.Some? ==> b.value == data[old(offset)..old(offset) + n] && offset == old(offset) + n
      ensures b.None? ==> offset == Exhausted(data, old(offset))
    {
      var got := Read(n);
      if |got| == n {
        b := Some(got);
      } else {
        b := None;
      }
    }

    /** UBInt16 */
    method ReadU16() returns (v: Option<nat>)
      modifies this
      ensures v.Some? <==> old(offset) + 2 <= |data|
      ensures v.Some? ==> v.value == U16(data, old(offset)) && offset == old(offset) + 2
      ensures v.None? ==> offset == Exhausted(data, old(offset))
    {
      var b := ReadField(2);
      if b.None? {
        return None;
      }
      v := Some(BE(b.value));
    }

    /** UBInt32 */
    method ReadU32() returns (v: Option<nat>)
      modifies this
      ensures v.Some? <==> old(offset) + 4 <= |data|
      ensures v.Some? ==> v.value == U32(data, old(offset)) && offset == old(offset) + 4
      ensures v.None? ==> offset == Exhausted(data, old(offset))
    {
      var b := ReadField(4);
      if b.None? {
        return None;
      }
      v := Some(BE(b.value));
    }
  }
}
