/**
 * The default plist plugin (plaso/parsers/plist_plugins/default.py): it
 * accepts every plist and yields one event per date value RecurseKey
 * reaches within its default depth.
 */
module PlistDefault {
  import opened Common
  import opened PlistInterface

  /** RecurseKey's default depth. */
  const DEFAULT_DEPTH: int := 15

  function DatesIn(ts: seq<Triple>): seq<PlistEvent>
  {
    if ts == [] then []
    else (if ts[0].value.PDate? then [PlistEvent(ts[0].root, ts[0].key, ts[0].value, None)] else []) + DatesIn(ts[1..])
  }

  /** DefaultPlugin.Process: no name or key check, straight to GetEntries. */
  function Process(plistName: Option<string>, top: PValue): seq<PlistEvent>
  {
    DatesIn(RecurseKey(top, "", DEFAULT_DEPTH))
  }

  /** The events are exactly the date tuples RecurseKey yields, in its order, with their root and key. */
  lemma {:induction false} DatesExactly(ts: seq<Triple>)
    ensures forall e :: e in DatesIn(ts) <==>
      exists t :: t in ts && t.value.PDate? && e == PlistEvent(t.root, t.key, t.value, None)
  {
    if ts != [] {
      DatesExactly(ts[1..]);
      forall e | e in DatesIn(ts)
        ensures exists t :: t in ts && t.value.PDate? && e == PlistEvent(t.root, t.key, t.value, None)
      {
        if !(ts[0].value.PDate? && e == PlistEvent(ts[0].root, ts[0].key, ts[0].value, None)) {
          assert e in DatesIn(ts[1..]);
          var t :| t in ts[1..] && t.value.PDate? && e == PlistEvent(t.root, t.key, t.value, None);
          assert t in ts;
        }
      }
      forall e | exists t :: t in ts && t.value.PDate? && e == PlistEvent(t.root, t.key, t.value, None)
        ensures e in DatesIn(ts)
      {
        var t :| t in ts && t.value.PDate? && e == PlistEvent(t.root, t.key, t.value, None);
        if t != ts[0] {
          assert t in ts[1..];
        }
      }
    }
  }

  /** The plugin never rejects: every event comes from a date value. */
  lemma NeverRejects(plistName: Option<string>, top: PValue)
    ensures forall e :: e in Process(plistName, top) <==>
      exists t :: t in RecurseKey(top, "", DEFAULT_DEPTH) && t.value.PDate? && e == PlistEvent(t.root, t.key, t.value, None)
  {
    DatesExactly(RecurseKey(top, "", DEFAULT_DEPTH));
  }
}
