/**
 * The Sleuthkit body file (mactime) parser: '|'-separated rows of md5,
 * name, inode, mode, uid, gid, size and four POSIX times.  A row is
 * accepted when its md5 is hexadecimal and its size a canonical decimal;
 * parsing turns every decimal field into an integer in place and yields one
 * event per non-zero time.
 */
module Mactime {
  import opened Common

  const DATA_TYPE: string := "fs:mactime:line"

  /** A field of a row: None (the line ran short), text, or the integer ParseRow made of it. */
  datatype Cell = Missing | Text(s: string) | Number(n: int)

  type Row = map<string, Cell>

  /** dict.get(key, default). */
  function Get(row: Row, key: string, default: Cell): Cell
  {
    if key in row then row[key] else default
  }

  /** Python truth of a cell. */
  predicate Truthy(c: Cell)
  {
    match c
      case Missing => false
      case Text(s) => s != ""
      case Number(n) => n != 0
  }

  // ---------------------------------------------------------------------
  // VerifyRow

  predicate IsHexDigit(c: char)
  {
    '0' <= c <= '9' || 'a' <= c <= 'f' || 'A' <= c <= 'F'
  }

  /** MD5_RE.match: ^[0-9a-fA-F]+$, where $ also matches before a final newline. */
  predicate Md5Matches(s: string)
  {
    var t := if s != [] && s[|s| - 1] == '\n' then s[..|s| - 1] else s;
    t != [] && forall i :: 0 <= i < |t| ==> IsHexDigit(t[i])
  }

  /**
   * The size test: str(int(size, 10)) == size.  A size that is not a
   * number is rejected (the ValueError is caught); int() of None or of a
   * non-string is a TypeError, which is not.
   */
  function SizeCanonical(row: Row): Result<bool>
  {
    match Get(row, "size", Text("0"))
      case Text(s) =>
        (match PyInt(s, 10)
          case None => Ok(false)
          case Some(n) => Ok(Get(row, "size", Missing) == Text(IntToStr(n))))
      case _ => Err(TypeError)
  }

  /** VerifyRow: KeyError without an md5 column, TypeError for an md5 that is not text. */
  function VerifyRow(row: Row): Result<bool>
  {
    if "md5" !in row then Err(KeyError)
    else match row["md5"]
      case Text(s) => if !Md5Matches(s) then Ok(false) else SizeCanonical(row)
      case _ => Err(TypeError)
  }

  // ---------------------------------------------------------------------
  // ParseRow: the in-place conversion and the events

  /** int(value, 10) of one field: an integer if it parses, else unchanged. */
  function ConvertCell(c: Cell): (r: Result<Cell>)
    ensures r.Err? <==> !c.Text?
    ensures r.Err? ==> r.exc == TypeError
  {
    match c
      case Text(s) => Ok(if PyInt(s, 10).Some? then Number(PyInt(s, 10).value) else c)
      case _ => Err(TypeError)
  }

  /** Every field converted; defined for rows of text only. */
  function Converted(row: Row): (r: Row)
    requires forall k :: k in row ==> row[k].Text?
  {
    map k | k in row :: ConvertCell(row[k]).value
  }

  /** The row dictionary a body-file line is read into. */
  class BodyRow {
    var cells: Row

    constructor(cells: Row)
      ensures this.cells == cells
    {
      this.cells := cells;
    }

    /**
     * The first loop of ParseRow: each field that parses as a decimal
     * integer is replaced by it.  A field that is not text (None from a
     * short line, or an integer from an earlier conversion) raises
     * TypeError; the keys are visited in the dictionary's order, so which
     * fields were converted by then is left open.
     */
    method ConvertFields() returns (r: Option<Exc>)
      modifies this
      ensures r.None? <==> forall k :: k in old(cells) ==> old(cells)[k].Text?
      ensures r.Some? ==> r.value == TypeError
      ensures r.None? ==> cells == Converted(old(cells))
      ensures cells.Keys == old(cells).Keys
      ensures r.Some? ==> forall k :: k in cells ==>
        cells[k] == old(cells)[k] || (old(cells)[k].Text? && cells[k] == ConvertCell(old(cells)[k]).value)
    {
      var keys := cells.Keys;
      ghost var done: set<string> := {};
      while keys != {}
        invariant keys !! done && keys + done == old(cells).Keys
        invariant cells.Keys == old(cells).Keys
        invariant forall k :: k in done ==> old(cells)[k].Text? && cells[k] == ConvertCell(old(cells)[k]).value
        invariant forall k :: k in keys ==> cells[k] == old(cells)[k]
        decreases keys
      {
        var k :| k in keys;
        var c := ConvertCell(cells[k]);
        if c.Err? {
          return Some(TypeError);
        }
        cells := cells[k := c.value];
        keys := keys - {k};
        done := done + {k};
      }
      AllConverted(old(cells), cells);
      return None;
    }
  }

  /** With every field visited, the row is the converted one. */
  lemma AllConverted(before: Row, after: Row)
    requires after.Keys == before.Keys
    requires forall k :: k in before ==> before[k].Text? && after[k] == ConvertCell(before[k]).value
    ensures after == Converted(before)
  {
  }

  datatype TimeDesc = AccessTime | CreationTime | ChangeTime | ModificationTime

  /** _TIMESTAMP_DESC_MAP, in the order it is written. */
  const TIME_FIELDS: seq<(string, TimeDesc)> := [
    ("atime", AccessTime), ("crtime", CreationTime), ("ctime", ChangeTime), ("mtime", ModificationTime)]

  /** The inode field: text up to a '-' read as a decimal, 0 if it is not one. */
  function InodeOf(c: Cell): Cell
  {
    match c
      case Text(s) =>
        var t := if Contains(s, "-") then Partition(s, "-").0 else s;
        Number(match PyInt(t, 10) case Some(n) => n case None => 0)
      case _ => c
  }

  /** unicode() of a cell. */
  function CellText(c: Cell): string
  {
    match c
      case Missing => "None"
      case Text(s) => s
      case Number(n) => IntToStr(n)
  }

  datatype MactimeEvent = MactimeEvent(
    posixTime: Cell, desc: TimeDesc,
    userSid: string, userGid: Cell, md5: Cell, filename: Cell,
    modeAsString: Cell, size: Cell, inode: Cell)

  /** MactimeEvent.__init__ on the converted row. */
  function NewEvent(time: Cell, desc: TimeDesc, data: Row): (e: MactimeEvent)
  {
    MactimeEvent(time, desc,
      CellText(Get(data, "uid", Text(""))), Get(data, "gid", Missing), Get(data, "md5", Missing),
      Get(data, "name", Text("N/A")), Get(data, "mode_as_string", Missing), Get(data, "size", Missing),
      InodeOf(Get(data, "inode", Number(0))))
  }

  /** The second loop of ParseRow from field i on: one event per truthy time. */
  function EventsFrom(row: Row, i: nat): (r: seq<MactimeEvent>)
    requires i <= |TIME_FIELDS|
    ensures |r| <= |TIME_FIELDS| - i
    decreases |TIME_FIELDS| - i
  {
    if i == |TIME_FIELDS| then []
    else
      var (key, desc) := TIME_FIELDS[i];
      var value := Get(row, key, Missing);
      (if Truthy(value) then [NewEvent(value, desc, row)] else []) + EventsFrom(row, i + 1)
  }

  function EventsOf(row: Row): seq<MactimeEvent>
  {
    EventsFrom(row, 0)
  }

  /** ParseRow: the conversion, then the events of the converted row. */
  method ParseRow(row: BodyRow) returns (r: Yielded<MactimeEvent>)
    modifies row
    ensures r.error.None? <==> forall k :: k in old(row.cells) ==> old(row.cells)[k].Text?
    ensures r.error.Some? ==> r == Yielded([], Some(TypeError))
    ensures r.error.None? ==> row.cells == Converted(old(row.cells)) && r.events == EventsOf(row.cells)
    ensures row.cells.Keys == old(row.cells).Keys
    ensures r.error.Some? ==> forall k :: k in row.cells ==>
      row.cells[k] == old(row.cells)[k] || (old(row.cells)[k].Text? && row.cells[k] == ConvertCell(old(row.cells)[k]).value)
  {
    var e := row.ConvertFields();
    if e.Some? {
      return Yielded([], e);
    }
    return Yielded(EventsOf(row.cells), None);
  }

  // ---------------------------------------------------------------------
  // Properties

  /** The canonical decimal text of some integer. */
  ghost predicate IsCanonicalInt(s: string)
  {
    exists n: int :: s == IntToStr(n)
  }

  /**
   * VerifyRow accepts exactly the rows whose md5 matches the pattern and
   * whose size is the canonical text of an integer.
   */
  lemma VerifyRowAccepts(row: Row)
    ensures VerifyRow(row) == Ok(true) <==>
      "md5" in row && row["md5"].Text? && Md5Matches(row["md5"].s)
      && "size" in row && row["size"].Text? && IsCanonicalInt(row["size"].s)
  {
    if "md5" in row && row["md5"].Text? && "size" in row && row["size"].Text? {
      var s := row["size"].s;
      assert SizeCanonical(row) == match PyInt(s, 10) case None => Ok(false) case Some(n) => Ok(s == IntToStr(n));
      if IsCanonicalInt(s) {
        var n: int :| s == IntToStr(n);
        IntToStrRoundTrip(n);
      } else if PyInt(s, 10).Some? {
        assert s != IntToStr(PyInt(s, 10).value);
      }
    }
  }

  /** VerifyRow raises only for a missing md5 column or a field that is not text. */
  lemma VerifyRowRaises(row: Row)
    ensures VerifyRow(row) == Err(KeyError) <==> "md5" !in row
    ensures VerifyRow(row).Err? ==> VerifyRow(row).exc in {KeyError, TypeError}
    ensures VerifyRow(row) == Err(TypeError) <==> ("md5" in row &&
      (!row["md5"].Text? || (Md5Matches(row["md5"].s) && !Get(row, "size", Text("0")).Text?)))
  {
  }

  /** A canonical integer has only digits after an optional '-', and no leading zero. */
  lemma CanonicalShape(s: string)
    requires IsCanonicalInt(s)
    ensures s != [] && (s[0] == '0' ==> s == "0")
    ensures forall i :: 0 <= i < |s| ==> '0' <= s[i] <= '9' || (i == 0 && s[i] == '-')
  {
    var n: int :| s == IntToStr(n);
    if n < 0 {
      var d := NatToStr(-n);
      assert forall i :: 1 <= i < |s| ==> s[i] == d[i - 1];
    }
  }

  /** The source's examples: '012' and '12a' are not canonical sizes. */
  lemma SizeExamples()
    ensures !IsCanonicalInt("012") && !IsCanonicalInt("12a")
  {
    if IsCanonicalInt("012") {
      CanonicalShape("012");
    }
    if IsCanonicalInt("12a") {
      CanonicalShape("12a");
    }
  }

  /** The decimal text of an integer converts back to that integer. */
  lemma ConvertIntText(n: int)
    ensures ConvertCell(Text(IntToStr(n))) == Ok(Number(n))
  {
    IntToStrRoundTrip(n);
  }

  /**
   * After the conversion no text field is a decimal number any more; the
   * keys are the same and every integer came from its own text.
   */
  lemma ConvertedNormal(row: Row)
    requires forall k :: k in row ==> row[k].Text?
    ensures Converted(row).Keys == row.Keys
    ensures forall k :: k in row && Converted(row)[k].Text? ==> Converted(row)[k] == row[k] && PyInt(row[k].s, 10).None?
    ensures forall k :: k in row && Converted(row)[k].Number? ==> PyInt(row[k].s, 10) == Some(Converted(row)[k].n)
  {
  }

  /** The size of an accepted row becomes the integer it is the text of. */
  lemma AcceptedSizeConverts(row: Row)
    requires forall k :: k in row ==> row[k].Text?
    requires VerifyRow(row) == Ok(true)
    ensures Converted(row)["size"].Number? && IntToStr(Converted(row)["size"].n) == row["size"].s
  {
  }

  /** The converted row is made of integers and text only, so converting it again raises. */
  lemma ConvertTwice(row: Row)
    requires forall k :: k in row ==> row[k].Text?
    requires exists k :: k in row && PyInt(row[k].s, 10).Some?
    ensures !forall k :: k in Converted(row) ==> Converted(row)[k].Text?
  {
    var k :| k in row && PyInt(row[k].s, 10).Some?;
    var c := ConvertCell(row[k]);
    assert c.value.Number?;
    assert Converted(row)[k] == c.value;
  }

  /** The key of a time description. */
  function KeyOf(d: TimeDesc): string
  {
    match d
      case AccessTime => "atime"
      case CreationTime => "crtime"
      case ChangeTime => "ctime"
      case ModificationTime => "mtime"
  }

  function IndexOf(d: TimeDesc): (i: nat)
    ensures i < |TIME_FIELDS| && TIME_FIELDS[i] == (KeyOf(d), d)
  {
    match d
      case AccessTime => 0
      case CreationTime => 1
      case ChangeTime => 2
      case ModificationTime => 3
  }

  /** Every event of EventsFrom(row, i) is for a truthy time at i or later, built from the row. */
  lemma {:induction false} EventsFromBuilt(row: Row, i: nat)
    requires i <= |TIME_FIELDS|
    ensures forall e :: e in EventsFrom(row, i) ==>
      IndexOf(e.desc) >= i && Truthy(e.posixTime) && e == NewEvent(Get(row, KeyOf(e.desc), Missing), e.desc, row)
    decreases |TIME_FIELDS| - i
  {
    if i < |TIME_FIELDS| {
      EventsFromBuilt(row, i + 1);
      var (key, desc) := TIME_FIELDS[i];
      assert IndexOf(desc) == i && KeyOf(desc) == key;
    }
  }

  /** EventsFrom(row, i) has an event for each truthy time at i or later. */
  lemma {:induction false} EventsFromComplete(row: Row, i: nat)
    requires i <= |TIME_FIELDS|
    ensures forall d: TimeDesc :: IndexOf(d) >= i ==>
      (Truthy(Get(row, KeyOf(d), Missing)) <==> exists e :: e in EventsFrom(row, i) && e.desc == d)
    decreases |TIME_FIELDS| - i
  {
    if i < |TIME_FIELDS| {
      EventsFromComplete(row, i + 1);
      EventsFromBuilt(row, i + 1);
      var (key, desc) := TIME_FIELDS[i];
      assert IndexOf(desc) == i;
      var value := Get(row, key, Missing);
      var head := if Truthy(value) then [NewEvent(value, desc, row)] else [];
      var rest := EventsFrom(row, i + 1);
      assert EventsFrom(row, i) == head + rest;
      forall d: TimeDesc | IndexOf(d) >= i
        ensures Truthy(Get(row, KeyOf(d), Missing)) <==> exists e :: e in EventsFrom(row, i) && e.desc == d
      {
        if IndexOf(d) == i {
          assert d == desc && KeyOf(d) == key;
          if Truthy(value) {
            assert head[0] in EventsFrom(row, i);
          }
        } else {
          if Truthy(Get(row, KeyOf(d), Missing)) {
            var e :| e in rest && e.desc == d;
            assert e in EventsFrom(row, i);
          }
        }
      }
    }
  }

  /**
   * ParseRow's events: one per truthy atime, crtime, ctime or mtime, each
   * with its own description, that time and the row's other fields.
   */
  lemma EventsOfShape(row: Row)
    ensures |EventsOf(row)| <= 4
    ensures forall e :: e in EventsOf(row) ==>
      Truthy(e.posixTime) && e == NewEvent(Get(row, KeyOf(e.desc), Missing), e.desc, row)
    ensures forall d: TimeDesc :: Truthy(Get(row, KeyOf(d), Missing)) <==> exists e :: e in EventsOf(row) && e.desc == d
  {
    EventsFromBuilt(row, 0);
    EventsFromComplete(row, 0);
  }

  /** The inode is read from the text before the first '-'. */
  lemma InodeBeforeDash(t: string, rest: string)
    requires !Contains(t, "-")
    ensures InodeOf(Text(t + "-" + rest)) == InodeOf(Text(t))
  {
    var s := t + "-" + rest;
    assert s[|t|..|t| + 1] == "-";
    assert At(s, "-", |t|);
    forall k | 0 <= k < |t|
      ensures !At(s, "-", k)
    {
      if At(s, "-", k) {
        assert s[k..k + 1] == t[k..k + 1];
        assert At(t, "-", k);
      }
    }
    assert Find(s, "-") == Some(|t|);
    assert s[..|t|] == t;
  }

  lemma NoDashInDigits(t: string)
    requires forall i :: 0 <= i < |t| ==> '0' <= t[i] <= '9'
    ensures !Contains(t, "-")
  {
    forall k | 0 <= k < |t|
      ensures !At(t, "-", k)
    {
      assert k + 1 <= |t| ==> t[k..k + 1][0] == t[k];
    }
  }

  /** A decimal inode with a '-' suffix reads as that decimal. */
  lemma InodeOfDecimal(n: nat, rest: string)
    ensures InodeOf(Text(NatToStr(n) + "-" + rest)) == Number(n)
  {
    var t := NatToStr(n);
    NoDashInDigits(t);
    InodeBeforeDash(t, rest);
    IntToStrRoundTrip(n);
  }

  /** Inode text that is not decimal (before any '-') is 0; an integer stays. */
  lemma InodeFallback(t: string, n: int)
    requires !Contains(t, "-") && PyInt(t, 10).None?
    ensures InodeOf(Text(t)) == Number(0)
    ensures InodeOf(Number(n)) == Number(n)
  {
  }

  /**
   * The event's user and file fields: user_sid is the text of uid ('' when
   * absent), so the canonical text of the integer a decimal uid became;
   * the file name is 'N/A' when absent.
   */
  lemma EventFields(time: Cell, desc: TimeDesc, row: Row)
    requires forall k :: k in row ==> row[k].Text?
    ensures var e := NewEvent(time, desc, Converted(row));
      ("uid" !in row ==> e.userSid == "")
      && ("uid" in row && PyInt(row["uid"].s, 10).Some? ==> e.userSid == IntToStr(PyInt(row["uid"].s, 10).value))
      && ("uid" in row && PyInt(row["uid"].s, 10).None? ==> e.userSid == row["uid"].s)
      && ("name" !in row ==> e.filename == Text("N/A"))
  {
    var data := Converted(row);
    var e := NewEvent(time, desc, data);
    assert e.userSid == CellText(Get(data, "uid", Text(""))) && e.filename == Get(data, "name", Text("N/A"));
    assert "uid" in data <==> "uid" in row;
    assert "name" in data <==> "name" in row;
    if "uid" in row {
      var u := row["uid"].s;
      assert data["uid"] == if PyInt(u, 10).Some? then Number(PyInt(u, 10).value) else Text(u);
    }
  }
}
