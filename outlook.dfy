/**
 * The Outlook Search MRU registry plugin: every named value holding a
 * non-zero integer gives one event with the integer as "0x" and eight
 * hexadecimal digits; only the first such value is at the key's
 * last-written time.
 */
module Outlook {
  import opened Common
  import opened WinReg

  const DESCRIPTION := "PST Paths"

  /** '0x{0:08x}'.format(n): "0x", then the lower-case hexadecimal digits of n padded with zeros to eight. */
  function HexText(n: nat): (r: string)
    ensures |r| >= 10 && r[..2] == "0x"
  {
    "0x" + PadLeft(NatToHex(n, false), 8, '0')
  }

  /** The values GetEntries turns into events: named, with non-zero integer data. */
  predicate Accepted(v: RegValue)
  {
    v.name != [] && DataTruthy(v.data) && v.data.IntData?
  }

  /** The event of an accepted value that is the index-th accepted one. */
  function ValueEvent(key: RegKey, v: RegValue, index: nat): RegistryEvent
    requires Accepted(v)
  {
    var timestamp := if index == 0 then key.lastWritten else 0;
    RegistryEvent(key.path, map[v.name := StrData(HexText(v.data.n))], timestamp, NoUsage, SourceAppend(DESCRIPTION))
  }

  /** The events of the remaining values when index values have been accepted before them. */
  function EventsFrom(key: RegKey, values: seq<RegValue>, index: nat): seq<RegistryEvent>
  {
    if values == [] then []
    else if !Accepted(values[0]) then EventsFrom(key, values[1..], index)
    else [ValueEvent(key, values[0], index)] + EventsFrom(key, values[1..], index + 1)
  }

  /** The accepted values, in order. */
  function AcceptedValues(values: seq<RegValue>): (r: seq<RegValue>)
    ensures |r| <= |values|
    ensures forall i :: 0 <= i < |r| ==> Accepted(r[i]) && r[i] in values
  {
    if values == [] then []
    else if Accepted(values[0]) then [values[0]] + AcceptedValues(values[1..])
    else AcceptedValues(values[1..])
  }

  /** One step of the loop: the events from value i on. */
  lemma EventsFromStep(key: RegKey, values: seq<RegValue>, i: nat, index: nat)
    requires i < |values|
    ensures EventsFrom(key, values[i..], index) ==
      if Accepted(values[i]) then [ValueEvent(key, values[i], index)] + EventsFrom(key, values[i + 1..], index + 1)
      else EventsFrom(key, values[i + 1..], index)
  {
    assert values[i..][0] == values[i] && values[i..][1..] == values[i + 1..];
  }

  /** An accepted value: its event joins the events so far, and the counter moves on. */
  lemma AcceptedStep(key: RegKey, values: seq<RegValue>, i: nat, index: nat, events: seq<RegistryEvent>)
    requires i < |values| && Accepted(values[i])
    requires events + EventsFrom(key, values[i..], index) == EventsFrom(key, values, 0)
    ensures (events + [ValueEvent(key, values[i], index)]) + EventsFrom(key, values[i + 1..], index + 1) == EventsFrom(key, values, 0)
  {
    EventsFromStep(key, values, i, index);
    var e := ValueEvent(key, values[i], index);
    var rest := EventsFrom(key, values[i + 1..], index + 1);
    assert events + [e] + rest == events + ([e] + rest);
  }

  /** A skipped value changes nothing. */
  lemma SkippedStep(key: RegKey, values: seq<RegValue>, i: nat, index: nat, events: seq<RegistryEvent>)
    requires i < |values| && !Accepted(values[i])
    requires events + EventsFrom(key, values[i..], index) == EventsFrom(key, values, 0)
    ensures events + EventsFrom(key, values[i + 1..], index) == EventsFrom(key, values, 0)
  {
    EventsFromStep(key, values, i, index);
  }

  /** OutlookSearchMRUPlugin.GetEntries: the loop over the values with its value_index counter. */
  method GetEntries(key: RegKey) returns (events: seq<RegistryEvent>)
    ensures events == EventsFrom(key, key.values, 0)
  {
    var valueIndex := 0;
    events := [];
    var i := 0;
    while i < |key.values|
      invariant 0 <= i <= |key.values|
      invariant valueIndex == |events|
      invariant events + EventsFrom(key, key.values[i..], valueIndex) == EventsFrom(key, key.values, 0)
    {
      var value := key.values[i];
      if Accepted(value) {
        var e := ValueEvent(key, value, valueIndex);
        AcceptedStep(key, key.values, i, valueIndex, events);
        events := events + [e];
        valueIndex := valueIndex + 1;
      } else {
        SkippedStep(key, key.values, i, valueIndex, events);
      }
      i := i + 1;
    }
    assert key.values[i..] == [];
  }

  // ---------------------------------------------------------------------
  // Properties

  /** One event per accepted value: skipped values do not count. */
  lemma {:induction false} EventsCount(key: RegKey, values: seq<RegValue>, index: nat)
    ensures |EventsFrom(key, values, index)| == |AcceptedValues(values)|
  {
    if values != [] {
      EventsCount(key, values[1..], if Accepted(values[0]) then index + 1 else index);
    }
  }

  /**
   * The k-th event maps the k-th accepted value's name to its integer in
   * hexadecimal, and is at the key's last-written time only when no value
   * was accepted before it.
   */
  lemma {:induction false} EventOfAccepted(key: RegKey, values: seq<RegValue>, index: nat, k: nat)
    requires k < |AcceptedValues(values)|
    ensures k < |EventsFrom(key, values, index)|
    ensures var v := AcceptedValues(values)[k];
      EventsFrom(key, values, index)[k] ==
        RegistryEvent(key.path, map[v.name := StrData(HexText(v.data.n))],
                      if index + k == 0 then key.lastWritten else 0, NoUsage, SourceAppend(DESCRIPTION))
  {
    EventsCount(key, values, index);
    if Accepted(values[0]) {
      if k > 0 {
        EventOfAccepted(key, values[1..], index + 1, k - 1);
      }
    } else {
      EventOfAccepted(key, values[1..], index, k);
    }
  }

  /** The first event only is at the key's last-written time; the others are at 0. */
  lemma OnlyFirstTimed(key: RegKey, k: nat)
    requires k < |EventsFrom(key, key.values, 0)|
    ensures EventsFrom(key, key.values, 0)[k].timestamp == if k == 0 then key.lastWritten else 0
  {
    EventsCount(key, key.values, 0);
    EventOfAccepted(key, key.values, 0, k);
  }

  /** Skipped values do not advance the counter: removing one leaves the events unchanged. */
  lemma {:induction false} SkippedValue(key: RegKey, before: seq<RegValue>, v: RegValue, after: seq<RegValue>, index: nat)
    requires !Accepted(v)
    ensures EventsFrom(key, before + [v] + after, index) == EventsFrom(key, before + after, index)
    decreases |before|
  {
    if before == [] {
      assert (before + [v] + after)[1..] == after && before + after == after;
    } else {
      var w := before + [v] + after;
      assert w[0] == before[0] && w[1..] == before[1..] + [v] + after;
      assert (before + after)[0] == before[0] && (before + after)[1..] == before[1..] + after;
      SkippedValue(key, before[1..], v, after, index);
      SkippedValue(key, before[1..], v, after, index + 1);
    }
  }

  /** The value text reads back as the integer: int(text, 16) accepts the "0x" prefix and the padding. */
  lemma HexTextRoundTrip(n: nat)
    ensures PyInt(HexText(n), 16) == Some(n)
  {
    var h := NatToHex(n, false);
    ZeroPadded(h, 8);
    PyIntHexPrefix(PadLeft(h, 8, '0'), 'x');
  }

  /** Four-byte integers give exactly ten characters: "0x" and eight digits. */
  lemma DwordText(n: nat)
    requires n < 0x1_0000_0000
    ensures |HexText(n)| == 10
  {
    assert Pow16(2) == 0x100 by {
      assert Pow16(1) == 16;
    }
    assert Pow16(4) == 0x1_0000 by {
      assert Pow16(3) == 0x1000;
    }
    assert Pow16(6) == 0x100_0000 by {
      assert Pow16(5) == 0x10_0000;
    }
    assert Pow16(8) == 0x1_0000_0000 by {
      assert Pow16(7) == 0x1000_0000;
    }
    HexLength(n, 8, false);
  }
}
