/**
 * The ESE database plugin interface: reading the values of a record by
 * column type, optionally through a converter named per column, and
 * running the plugin's table callbacks on the tables the database has.
 */
module EsedbInterface {
  import opened Common

  /** pyesedb's column types. */
  datatype ColumnType =
    | NullType | BooleanType | GuidType | BinaryData | LargeBinaryData
    | Float32 | Double64
    | Currency | DateTime | Int8Unsigned | Int16Signed | Int16Unsigned
    | Int32Signed | Int32Unsigned | Int64Signed
    | Text | LargeText
    | OtherType

  predicate IsIntegerType(t: ColumnType)
  {
    t in {Currency, DateTime, Int8Unsigned, Int16Signed, Int16Unsigned, Int32Signed, Int32Unsigned, Int64Signed}
  }

  predicate IsFloatType(t: ColumnType)
  {
    t == Float32 || t == Double64
  }

  predicate IsStringType(t: ColumnType)
  {
    t == Text || t == LargeText
  }

  /**
   * One value of a record, with the readings pyesedb offers for it: as an
   * integer, a floating-point number (kept as the integer it stands for),
   * a string and the raw data.
   */
  datatype ValueEntry = ValueEntry(
    columnName: string, columnType: ColumnType, multiValue: bool,
    asInteger: int, asFloat: int, asString: string, data: seq<byte>)

  /** A Python value read from a record: None, an integer, a float, a string or a byte string. */
  datatype EseValue = NoValue | IntValue(i: int) | FloatValue(f: int) | StrValue(s: string) | Bytes(b: seq<byte>)

  /** Python truth of a value. */
  predicate Truthy(v: EseValue)
  {
    match v
    case NoValue => false
    case IntValue(i) => i != 0
    case FloatValue(f) => f != 0
    case StrValue(s) => s != []
    case Bytes(b) => b != []
  }

  /** _GetRecordValue: the reading that goes with the column type. */
  function GetRecordValue(e: ValueEntry): EseValue
  {
    if e.multiValue then Bytes(e.data)
    else if e.columnType == NullType then NoValue
    else if e.columnType == BooleanType then Bytes(e.data)
    else if IsIntegerType(e.columnType) then IntValue(e.asInteger)
    else if IsFloatType(e.columnType) then FloatValue(e.asFloat)
    else if IsStringType(e.columnType) then StrValue(e.asString)
    else Bytes(e.data)
  }

  /**
   * Multi-value columns are read raw whatever their type; otherwise NULL
   * columns give None, integer, floating-point and text columns their
   * reading, and every other type (boolean and GUID among them) the raw data.
   */
  lemma GetRecordValueKind(e: ValueEntry)
    ensures GetRecordValue(e).NoValue? <==> !e.multiValue && e.columnType == NullType
    ensures GetRecordValue(e).IntValue? <==> !e.multiValue && IsIntegerType(e.columnType)
    ensures GetRecordValue(e).FloatValue? <==> !e.multiValue && IsFloatType(e.columnType)
    ensures GetRecordValue(e).StrValue? <==> !e.multiValue && IsStringType(e.columnType)
    ensures GetRecordValue(e).Bytes? <==> e.multiValue || e.columnType in {BooleanType, GuidType, BinaryData, LargeBinaryData, OtherType}
    ensures GetRecordValue(e).IntValue? ==> GetRecordValue(e).i == e.asInteger
    ensures GetRecordValue(e).StrValue? ==> GetRecordValue(e).s == e.asString
    ensures GetRecordValue(e).Bytes? ==> GetRecordValue(e).b == e.data
  {
  }

  // ---------------------------------------------------------------------
  // Value converters

  /** The interface's converter methods. */
  datatype Converter = ToStringAscii | ToStringBase16 | ToUBInt64 | ToULInt64

  /** getattr(self, name, None) over the interface's converter methods. */
  function ConverterNamed(name: string): Option<Converter>
  {
    if name == "_ConvertValueBinaryDataToStringAscii" then Some(ToStringAscii)
    else if name == "_ConvertValueBinaryDataToStringBase16" then Some(ToStringBase16)
    else if name == "_ConvertValueBinaryDataToUBInt64" then Some(ToUBInt64)
    else if name == "_ConvertValueBinaryDataToULInt64" then Some(ToULInt64)
    else None
  }

  predicate IsAscii(b: seq<byte>)
  {
    forall i :: 0 <= i < |b| ==> b[i] < 128
  }

  /** Text the default ASCII codec can encode. */
  predicate IsAsciiText(s: string)
  {
    forall i :: 0 <= i < |s| ==> s[i] < 128 as char
  }

  /** The bytes the ASCII codec encodes a text to. */
  function AsciiBytes(s: string): (b: seq<byte>)
    requires IsAsciiText(s)
    ensures |b| == |s| && forall i :: 0 <= i < |s| ==> b[i] as int == s[i] as int
  {
    seq(|s|, i requires 0 <= i < |s| => s[i] as int as byte)
  }

  /** A converter applied to raw binary data. */
  function ConvertBytes(c: Converter, b: seq<byte>): Result<EseValue>
  {
    match c
    case ToStringAscii => if IsAscii(b) then Ok(StrValue(Chars(b))) else Err(ValueError)
    case ToStringBase16 => Ok(StrValue(Hexlify(b)))
    case ToUBInt64 =>
      (match ReadBE(b, 0, 8) case None => Err(FieldError) case Some(n) => Ok(IntValue(n)))
    case ToULInt64 =>
      (match ReadLE(b, 0, 8) case None => Err(FieldError) case Some(n) => Ok(IntValue(n)))
  }

  /**
   * A converter applied to a value: None for a false value.  Binary data
   * gives the ASCII text (a UnicodeDecodeError, a ValueError, for other
   * bytes), the hexadecimal text, or the first 8 bytes as a big- or
   * little-endian integer (construct's FieldError when there are fewer).
   * Python 2 first encodes a unicode text with the default ASCII codec
   * (a UnicodeEncodeError, a ValueError, when it has other characters) and
   * then converts those bytes.  A number has no decode or encode method.
   */
  function Convert(c: Converter, v: EseValue): (r: Result<EseValue>)
    ensures !Truthy(v) ==> r == Ok(NoValue)
    ensures Truthy(v) && (v.IntValue? || v.FloatValue?) ==> r == Err(AttributeError)
    ensures Truthy(v) && v.StrValue? && !IsAsciiText(v.s) ==> r == Err(ValueError)
    ensures Truthy(v) && v.StrValue? && c == ToStringAscii && IsAsciiText(v.s) ==> r == Ok(v)
  {
    if !Truthy(v) then Ok(NoValue)
    else match v
      case Bytes(b) => ConvertBytes(c, b)
      case StrValue(s) =>
        if !IsAsciiText(s) then Err(ValueError)
        else
          var r := ConvertBytes(c, AsciiBytes(s));
          assert c == ToStringAscii ==> Chars(AsciiBytes(s)) == s;
          r
      case _ => Err(AttributeError)
  }

  /**
   * An ASCII unicode text converts exactly as the byte string of the same
   * characters does: the ASCII converter gives the text back, the base-16
   * converter its two-digit codes.
   */
  lemma UnicodeAsItsBytes(c: Converter, s: string)
    requires s != [] && IsAsciiText(s)
    ensures Convert(c, StrValue(s)) == Convert(c, Bytes(AsciiBytes(s)))
    ensures Convert(ToStringAscii, Bytes(AsciiBytes(s))) == Ok(StrValue(s))
    ensures Convert(ToStringBase16, StrValue(s)) == Ok(StrValue(Hexlify(AsciiBytes(s))))
    ensures |Convert(ToStringBase16, StrValue(s)).value.s| == 2 * |s|
  {
    assert IsAscii(AsciiBytes(s));
    assert Chars(AsciiBytes(s)) == s;
  }

  /** The integer converters read back any 64-bit value written in their byte order. */
  lemma Int64RoundTrip(v: nat)
    requires v < Pow256(8)
    ensures Convert(ToUBInt64, Bytes(EncodeBE(v, 8))) == Ok(IntValue(v))
    ensures Convert(ToULInt64, Bytes(EncodeLE(v, 8))) == Ok(IntValue(v))
  {
    BEOfEncodeBE(v, 8);
    LEOfEncodeLE(v, 8);
    assert EncodeBE(v, 8)[0..0 + 8] == EncodeBE(v, 8);
    assert EncodeLE(v, 8)[0..0 + 8] == EncodeLE(v, 8);
    ReadLEIsLE(EncodeLE(v, 8));
  }

  lemma ReadLEIsLE(b: seq<byte>)
    requires |b| == 8
    ensures ReadLE(b, 0, 8) == Some(LE(b))
  {
    LEAtIsLE(b, 0, 8);
    assert b[0..8] == b;
  }

  /** Fewer than 8 bytes do not make an integer. */
  lemma ShortInt64(b: seq<byte>, c: Converter)
    requires 0 < |b| < 8 && (c == ToUBInt64 || c == ToULInt64)
    ensures Convert(c, Bytes(b)) == Err(FieldError)
  {
  }

  /** ASCII bytes decode to the characters they stand for, two hexadecimal digits per byte otherwise. */
  lemma TextConverters(b: seq<byte>)
    requires b != []
    ensures IsAscii(b) ==> Convert(ToStringAscii, Bytes(b)) == Ok(StrValue(Chars(b)))
    ensures !IsAscii(b) ==> Convert(ToStringAscii, Bytes(b)) == Err(ValueError)
    ensures Convert(ToStringBase16, Bytes(b)).Ok? && |Convert(ToStringBase16, Bytes(b)).value.s| == 2 * |b|
  {
  }

  // ---------------------------------------------------------------------
  // Record values

  /** The converter a column's mapping names, when it names an existing method. */
  function Callback(mappings: map<string, string>, column: string): Option<Converter>
  {
    if column in mappings && mappings[column] != "" then ConverterNamed(mappings[column]) else None
  }

  /** A column's value, converted when its mapping names a converter. */
  function EntryValue(e: ValueEntry, mappings: map<string, string>): Result<EseValue>
  {
    match Callback(mappings, e.columnName)
    case None => Ok(GetRecordValue(e))
    case Some(c) => Convert(c, GetRecordValue(e))
  }

  /** The names of the columns of a record, in order. */
  function Names(entries: seq<ValueEntry>): (r: seq<string>)
    ensures |r| == |entries| && forall i :: 0 <= i < |entries| ==> r[i] == entries[i].columnName
  {
    if entries == [] then [] else Names(entries[..|entries| - 1]) + [entries[|entries| - 1].columnName]
  }

  /** _GetRecordValues: the first value of each column name; a duplicate name is skipped before it is read. */
  function RecordValues(entries: seq<ValueEntry>, mappings: map<string, string>): Result<map<string, EseValue>>
    decreases |entries|
  {
    if entries == [] then Ok(map[])
    else
      var e := entries[|entries| - 1];
      match RecordValues(entries[..|entries| - 1], mappings)
      case Err(x) => Err(x)
      case Ok(m) =>
        if e.columnName in m then Ok(m)
        else
          match EntryValue(e, mappings)
          case Err(x) => Err(x)
          case Ok(v) => Ok(m[e.columnName := v])
  }

  /** The first index at which a column name occurs. */
  predicate FirstOf(entries: seq<ValueEntry>, j: int)
  {
    0 <= j < |entries| && entries[j].columnName !in Names(entries[..j])
  }

  /** The values have exactly the record's column names as keys. */
  lemma {:induction false} RecordValuesKeys(entries: seq<ValueEntry>, mappings: map<string, string>)
    requires RecordValues(entries, mappings).Ok?
    ensures RecordValues(entries, mappings).value.Keys == set n | n in Names(entries)
    decreases |entries|
  {
    if entries != [] {
      var init := entries[..|entries| - 1];
      RecordValuesKeys(init, mappings);
      assert Names(entries) == Names(init) + [entries[|entries| - 1].columnName];
    }
  }

  /** Below the last index, being the first of a name is the same in the record and in its prefix. */
  lemma FirstOfPrefix(entries: seq<ValueEntry>, j: int)
    requires 0 <= j < |entries| - 1
    ensures FirstOf(entries, j) <==> FirstOf(entries[..|entries| - 1], j)
  {
    assert entries[..|entries| - 1][..j] == entries[..j];
  }

  /** The last column is the first of its name exactly when its name has not been read. */
  lemma FirstOfLast(entries: seq<ValueEntry>)
    requires entries != []
    ensures FirstOf(entries, |entries| - 1) <==>
      entries[|entries| - 1].columnName !in Names(entries[..|entries| - 1])
  {
  }

  /** Reading fails exactly when one of the first columns of a name fails to convert. */
  lemma {:induction false} RecordValuesOk(entries: seq<ValueEntry>, mappings: map<string, string>)
    ensures RecordValues(entries, mappings).Ok? <==> forall j :: FirstOf(entries, j) ==> EntryValue(entries[j], mappings).Ok?
    decreases |entries|
  {
    if entries != [] {
      var n := |entries| - 1;
      var init := entries[..n];
      var e := entries[n];
      RecordValuesOk(init, mappings);
      var r0 := RecordValues(init, mappings);
      if r0.Err? {
        var j :| FirstOf(init, j) && EntryValue(init[j], mappings).Err?;
        FirstOfPrefix(entries, j);
        assert entries[j] == init[j];
      } else {
        RecordValuesKeys(init, mappings);
        FirstOfLast(entries);
        var allFirst := forall j :: FirstOf(entries, j) ==> EntryValue(entries[j], mappings).Ok?;
        if allFirst {
          forall j | FirstOf(init, j) ensures EntryValue(init[j], mappings).Ok? {
            FirstOfPrefix(entries, j);
            assert entries[j] == init[j];
          }
        }
        if RecordValues(entries, mappings).Ok? {
          forall j | FirstOf(entries, j) ensures EntryValue(entries[j], mappings).Ok? {
            if j < n {
              FirstOfPrefix(entries, j);
              assert entries[j] == init[j];
            }
          }
        }
      }
    }
  }

  /** One more column: skipped when its name is known, otherwise read and added. */
  lemma RecordValuesStep(entries: seq<ValueEntry>, mappings: map<string, string>)
    requires entries != [] && RecordValues(entries[..|entries| - 1], mappings).Ok?
    ensures var m := RecordValues(entries[..|entries| - 1], mappings).value;
      var e := entries[|entries| - 1];
      RecordValues(entries, mappings) ==
        if e.columnName in m then Ok(m)
        else if EntryValue(e, mappings).Err? then Err(EntryValue(e, mappings).exc)
        else Ok(m[e.columnName := EntryValue(e, mappings).value])
  {
  }

  /** The value kept for a column name is the converted value of the first column with that name. */
  lemma {:induction false} FirstValueWins(entries: seq<ValueEntry>, mappings: map<string, string>, j: int)
    requires RecordValues(entries, mappings).Ok? && FirstOf(entries, j)
    ensures entries[j].columnName in RecordValues(entries, mappings).value
    ensures EntryValue(entries[j], mappings) == Ok(RecordValues(entries, mappings).value[entries[j].columnName])
    decreases |entries|
  {
    var n := |entries| - 1;
    var init := entries[..n];
    var e := entries[n];
    RecordValuesStep(entries, mappings);
    RecordValuesKeys(init, mappings);
    var m := RecordValues(init, mappings).value;
    var r := RecordValues(entries, mappings).value;
    var c := entries[j].columnName;
    if j < n {
      FirstOfPrefix(entries, j);
      FirstValueWins(init, mappings, j);
      assert init[j] == entries[j];
      assert c in m && EntryValue(entries[j], mappings) == Ok(m[c]);
      assert c in r && r[c] == m[c];
    } else {
      FirstOfLast(entries);
      assert c !in m;
      assert r == m[c := EntryValue(e, mappings).value];
    }
  }

  /** Without mappings every value is the column's own reading. */
  lemma NoMappings(entries: seq<ValueEntry>, j: int)
    requires FirstOf(entries, j)
    ensures RecordValues(entries, map[]).Ok?
    ensures entries[j].columnName in RecordValues(entries, map[]).value
    ensures RecordValues(entries, map[]).value[entries[j].columnName] == GetRecordValue(entries[j])
  {
    RecordValuesOk(entries, map[]);
    FirstValueWins(entries, map[], j);
  }

  /** A converter is applied only when the column's mapping names an existing method. */
  lemma CallbackNamed(mappings: map<string, string>, e: ValueEntry)
    ensures Callback(mappings, e.columnName).None? ==> EntryValue(e, mappings) == Ok(GetRecordValue(e))
    ensures e.columnName in mappings && ConverterNamed(mappings[e.columnName]).None? ==>
      EntryValue(e, mappings) == Ok(GetRecordValue(e))
  {
  }

  /** _GetRecordValues. */
  method GetRecordValues(entries: seq<ValueEntry>, mappings: map<string, string>)
      returns (r: Result<map<string, EseValue>>)
    ensures r == RecordValues(entries, mappings)
  {
    var recordValues: map<string, EseValue> := map[];
    var k := 0;
    while k < |entries|
      invariant 0 <= k <= |entries|
      invariant RecordValues(entries[..k], mappings) == Ok(recordValues)
    {
      assert entries[..k + 1][..k] == entries[..k];
      var columnName := entries[k].columnName;
      if columnName in recordValues {
        // A duplicate column is logged and skipped.
      } else {
        var callback: Option<Converter> := None;
        if columnName in mappings {
          var callbackMethod := mappings[columnName];
          if callbackMethod != "" {
            callback := ConverterNamed(callbackMethod);
          }
        }
        var value := GetRecordValue(entries[k]);
        if callback.Some? {
          var converted := Convert(callback.value, value);
          if converted.Err? {
            assert entries[..k + 1] == entries[..k] + [entries[k]];
            assert RecordValues(entries[..k + 1], mappings) == Err(converted.exc);
            PrefixErr(entries, mappings, k + 1);
            return Err(converted.exc);
          }
          value := converted.value;
        }
        recordValues := recordValues[columnName := value];
      }
      k := k + 1;
    }
    assert entries[..k] == entries;
    r := Ok(recordValues);
  }

  /** An error while reading a prefix is the error of the whole record. */
  lemma {:induction false} PrefixErr(entries: seq<ValueEntry>, mappings: map<string, string>, k: nat)
    requires k <= |entries| && RecordValues(entries[..k], mappings).Err?
    ensures RecordValues(entries, mappings) == RecordValues(entries[..k], mappings)
    decreases |entries| - k
  {
    if k < |entries| {
      assert entries[..k + 1][..k] == entries[..k];
      PrefixErr(entries, mappings, k + 1);
    } else {
      assert entries[..k] == entries;
    }
  }

  // ---------------------------------------------------------------------
  // The plugin

  datatype Table = Table(name: string)

  /** An ESE database: its tables, in order. */
  datatype Database = Database(tables: seq<Table>)

  /** pyesedb's get_table_by_name: the table of that name, if any. */
  predicate HasTable(db: Database, name: string)
  {
    exists i :: 0 <= i < |db.tables| && db.tables[i].name == name
  }

  /** _GetTableNames. */
  method GetTableNames(db: Database) returns (names: seq<string>)
    ensures |names| == |db.tables| && forall i :: 0 <= i < |names| ==> names[i] == db.tables[i].name
  {
    names := [];
    var i := 0;
    while i < |db.tables|
      invariant 0 <= i <= |db.tables|
      invariant |names| == i && forall k :: 0 <= k < i ==> names[k] == db.tables[k].name
    {
      names := names + [db.tables[i].name];
      i := i + 1;
    }
  }

  /** The events one table gives: none without a callback name, a callback method or the table. */
  function TableEvents<E>(tables: map<string, string>, name: string, db: Database, callbacks: set<string>,
                          run: (string, string) -> seq<E>): seq<E>
  {
    if name !in tables || tables[name] == "" || tables[name] !in callbacks || !HasTable(db, name) then []
    else run(tables[name], name)
  }

  /** The events of the tables, in the map's iteration order. */
  function AllTableEvents<E>(tables: map<string, string>, order: seq<string>, db: Database, callbacks: set<string>,
                             run: (string, string) -> seq<E>): seq<E>
    decreases |order|
  {
    if order == [] then []
    else
      AllTableEvents(tables, order[..|order| - 1], db, callbacks, run) +
      TableEvents(tables, order[|order| - 1], db, callbacks, run)
  }

  /** Every table that is skipped contributes nothing; the others give their callback's events. */
  lemma TableEventsCases<E>(tables: map<string, string>, name: string, db: Database, callbacks: set<string>,
                            run: (string, string) -> seq<E>)
    requires name in tables
    ensures tables[name] == "" ==> TableEvents(tables, name, db, callbacks, run) == []
    ensures tables[name] !in callbacks ==> TableEvents(tables, name, db, callbacks, run) == []
    ensures !HasTable(db, name) ==> TableEvents(tables, name, db, callbacks, run) == []
    ensures tables[name] != "" && tables[name] in callbacks && HasTable(db, name) ==>
      TableEvents(tables, name, db, callbacks, run) == run(tables[name], name)
  {
  }

  /** A database with none of the tables gives no events. */
  lemma {:induction false} NoTablesNoEvents<E>(tables: map<string, string>, order: seq<string>, callbacks: set<string>,
                                               run: (string, string) -> seq<E>)
    ensures AllTableEvents(tables, order, Database([]), callbacks, run) == []
    decreases |order|
  {
    if order != [] {
      NoTablesNoEvents(tables, order[..|order| - 1], callbacks, run);
    }
  }

  /** The order in which a dictionary yields its keys: each key once. */
  ghost predicate IsKeyOrder(m: map<string, string>, order: seq<string>)
  {
    (forall k :: k in m <==> k in order) && (forall i, j :: 0 <= i < j < |order| ==> order[i] != order[j])
  }

  class EseDbPlugin {
    const requiredTables: set<string>
    /** Table name to callback method name; an empty name marks a table only used for detection. */
    var tables: map<string, string>

    /** __init__: the required tables, then the optional ones, the latter winning on a shared name. */
    constructor(required: map<string, string>, optional: map<string, string>)
      ensures requiredTables == required.Keys
      ensures tables == required + optional
    {
      requiredTables := required.Keys;
      tables := map[];
      tables := tables + required;
      tables := tables + optional;
    }

    /** GetEntries: ValueError without a database; otherwise the events of each table's callback. */
    method GetEntries<E>(database: Option<Database>, order: seq<string>, callbacks: set<string>,
                         run: (string, string) -> seq<E>) returns (r: Result<seq<E>>)
      requires IsKeyOrder(tables, order)
      ensures database.None? ==> r == Err(ValueError)
      ensures database.Some? ==> r == Ok(AllTableEvents(tables, order, database.value, callbacks, run))
    {
      if database.None? {
        return Err(ValueError);
      }
      var db := database.value;
      var events: seq<E> := [];
      var i := 0;
      while i < |order|
        invariant 0 <= i <= |order|
        invariant events == AllTableEvents(tables, order[..i], db, callbacks, run)
      {
        assert order[..i + 1][..i] == order[..i];
        var tableName := order[i];
        var callbackMethod := tables[tableName];
        if callbackMethod != "" && callbackMethod in callbacks && HasTable(db, tableName) {
          events := events + run(callbackMethod, tableName);
        }
        i := i + 1;
      }
      assert order[..i] == order;
      r := Ok(events);
    }

    /** Process: ValueError without a database, WrongPlugin when a required table is missing. */
    method Process<E>(database: Option<Database>, order: seq<string>, callbacks: set<string>,
                      run: (string, string) -> seq<E>) returns (r: Result<seq<E>>)
      requires IsKeyOrder(tables, order)
      ensures database.None? ==> r == Err(ValueError)
      ensures database.Some? && !(forall t :: t in requiredTables ==> HasTable(database.value, t)) ==> r == Err(WrongPlugin)
      ensures database.Some? && (forall t :: t in requiredTables ==> HasTable(database.value, t)) ==>
        r == Ok(AllTableEvents(tables, order, database.value, callbacks, run))
    {
      if database.None? {
        return Err(ValueError);
      }
      var names := GetTableNames(database.value);
      var tableNames := set n | n in names;
      forall t ensures t in tableNames <==> HasTable(database.value, t) {
        if HasTable(database.value, t) {
          var i :| 0 <= i < |database.value.tables| && database.value.tables[i].name == t;
          assert names[i] == t;
        }
        if t in tableNames {
          var i :| 0 <= i < |names| && names[i] == t;
          assert database.value.tables[i].name == t;
        }
      }
      if requiredTables - tableNames != {} {
        var t :| t in requiredTables - tableNames;
        assert !HasTable(database.value, t);
        return Err(WrongPlugin);
      }
      forall t | t in requiredTables ensures HasTable(database.value, t) {
        assert t !in requiredTables - tableNames;
      }
      r := GetEntries(database, order, callbacks, run);
    }
  }

  /** Optional tables override the callback of a required table of the same name. */
  lemma TableMapMerge(required: map<string, string>, optional: map<string, string>)
    ensures (required + optional).Keys == required.Keys + optional.Keys
    ensures forall k :: k in optional ==> (required + optional)[k] == optional[k]
    ensures forall k :: k in required && k !in optional ==> (required + optional)[k] == required[k]
  {
  }
}
