/**
 * Bencoded data as the bencode parser hands it to its plugins: integers,
 * byte strings, lists and dictionaries, and the Python 2 behaviour of the
 * operations the plugins apply to them.
 */
module BencodeValues {
  import opened Common
  import opened Timelib

  /** A decoded bencode value; a dictionary keeps its entries in iteration order. */
  datatype BValue = BInt(i: int) | BStr(s: string) | BList(items: seq<BValue>) | BDict(entries: seq<(string, BValue)>)

  /** dict.get: the value of the first entry with that key. */
  function Get(entries: seq<(string, BValue)>, key: string): (r: Option<BValue>)
    ensures r.Some? <==> exists i :: 0 <= i < |entries| && entries[i].0 == key
    ensures r.Some? ==>
      exists i :: 0 <= i < |entries| && entries[i].0 == key && r.value == entries[i].1 &&
                  (forall j :: 0 <= j < i ==> entries[j].0 != key)
  {
    if entries == [] then None
    else if entries[0].0 == key then
      assert entries[0].0 == key && entries[0].1 == entries[0].1;
      Some(entries[0].1)
    else
      var rest := Get(entries[1..], key);
      assert forall i :: 1 <= i < |entries| ==> entries[i] == entries[1..][i - 1];
      assert rest.Some? ==> exists i :: 0 <= i < |entries[1..]| && entries[1..][i].0 == key;
      assert rest.Some? ==>
        exists i :: 1 <= i < |entries| && entries[i].0 == key && rest.value == entries[i].1 &&
                    (forall j :: 0 <= j < i ==> entries[j].0 != key) by {
        if rest.Some? {
          var k :| 0 <= k < |entries[1..]| && entries[1..][k].0 == key &&
            rest.value == entries[1..][k].1 && forall j :: 0 <= j < k ==> entries[1..][j].0 != key;
          assert forall j :: 0 <= j < k + 1 ==> entries[j].0 != key by {
            forall j | 0 <= j < k + 1 ensures entries[j].0 != key {
              if j > 0 { assert entries[j] == entries[1..][j - 1]; }
            }
          }
        }
      }
      rest
  }

  /** Python truth of a value; a missing value (None) is false. */
  predicate Truthy(v: Option<BValue>)
  {
    match v
    case None => false
    case Some(BInt(i)) => i != 0
    case Some(BStr(s)) => s != []
    case Some(BList(items)) => items != []
    case Some(BDict(entries)) => entries != []
  }

  /**
   * FromPosixTime on a decoded value.  Python 2 orders None below and
   * strings, lists and dictionaries above every number, so any value that
   * is not an integer falls outside the range and gives 0.
   */
  function PosixOf(v: BValue): (r: int)
    ensures !v.BInt? ==> r == 0
    ensures v.BInt? ==> r == FromPosixTime(v.i)
  {
    if v.BInt? then FromPosixTime(v.i) else 0
  }

  /** seconds // 60: the minutes, or a TypeError for None and non-integers. */
  function Minutes(seconds: Option<BValue>): (r: Result<int>)
    ensures r.Ok? <==> seconds.Some? && seconds.value.BInt?
  {
    if seconds.Some? && seconds.value.BInt? then Ok(seconds.value.i / 60) else Err(TypeError)
  }

  /** Python's floor division by 60 leaves a remainder below 60, negative seconds included. */
  lemma MinutesFloor(n: int)
    ensures Minutes(Some(BInt(n))).Ok?
    ensures 60 * Minutes(Some(BInt(n))).value <= n < 60 * Minutes(Some(BInt(n))).value + 60
  {
  }

  /** What a generator yields: a's events, then, unless a ended in an exception, b's. */
  function Chain<E>(a: Yielded<E>, b: Yielded<E>): (r: Yielded<E>)
    ensures a.error.Some? ==> r == a
    ensures a.error.None? ==> r.events == a.events + b.events && r.error == b.error
  {
    if a.error.Some? then a else Then(a.events, b)
  }
}
