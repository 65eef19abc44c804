/**
 * The OLECF summary and document summary information plugins.  The
 * properties of the sections with the right class identifier are
 * combined into one set of attributes, the first value of a property
 * winning; FILETIME properties of the summary information become events.
 */
module OlecfSummary {
  import opened Common
  import opened Timelib
  import opened Formatters

  /** The OLE property types the plugins tell apart (OleDefinitions). */
  datatype VType = VtI2 | VtI4 | VtBool | VtLpstr | VtLpwstr | VtFiletime | VtOther

  /** A property value, with the readings pyolecf offers for it. */
  datatype PropertyValue = PropertyValue(vtype: VType, identifier: int, asInteger: int, asString: string, asBool: bool)

  datatype Section = Section(classId: string, properties: seq<PropertyValue>)

  /** An event's timestamp description: a literal one, CREATION_TIME or MODIFICATION_TIME. */
  datatype TimeDesc = Described(text: string) | CreationTime | ModificationTime

  /** Sets name to v unless the name is unknown or already set. */
  function AddNew(attrs: Attributes, name: Option<string>, v: Value): (r: Attributes)
    ensures forall k :: k in attrs ==> k in r && r[k] == attrs[k]
    ensures name.Some? && name.value !in attrs ==> name.value in r && r[name.value] == v
    ensures r.Keys <= attrs.Keys + (if name.Some? then {name.value} else {})
  {
    if name.Some? && name.value !in attrs then attrs[name.value := v] else attrs
  }

  // ---------------------------------------------------------------------
  // Summary information

  const SUMMARY_CLASS_ID: string := "f29f85e0-4ff9-1068-ab91-08002b27b3d9"

  const PIDSI_EDITTIME: int := 0x000a
  const PIDSI_LASTPRINTED: int := 0x000b
  const PIDSI_CREATE_DTM: int := 0x000c
  const PIDSI_LASTSAVE_DTM: int := 0x000d

  /** _PROPERTY_NAMES_INT32 of the summary information. */
  function SummaryInt32Name(id: int): Option<string>
  {
    if id == 0x000e then Some("number_of_pages")
    else if id == 0x000f then Some("number_of_words")
    else if id == 0x0010 then Some("number_of_characters")
    else if id == 0x0013 then Some("security")
    else None
  }

  /** _PROPERTY_NAMES_STRING of the summary information. */
  function SummaryStringName(id: int): Option<string>
  {
    if id == 0x0002 then Some("title")
    else if id == 0x0003 then Some("subject")
    else if id == 0x0004 then Some("author")
    else if id == 0x0005 then Some("keywords")
    else if id == 0x0006 then Some("comments")
    else if id == 0x0007 then Some("template")
    else if id == 0x0008 then Some("last_saved_by")
    else if id == 0x0009 then Some("revision_number")
    else if id == 0x0012 then Some("application")
    else None
  }

  /** What the summary information has gathered: attributes and (FILETIME, description) pairs. */
  datatype Info = Info(attributes: Attributes, times: seq<(int, TimeDesc)>)

  /** The attribute a summary property sets, if any. */
  function SummaryName(p: PropertyValue): Option<string>
  {
    if p.vtype == VtI4 then SummaryInt32Name(p.identifier)
    else if p.vtype == VtLpstr || p.vtype == VtLpwstr then SummaryStringName(p.identifier)
    else None
  }

  function SummaryValue(p: PropertyValue): Value
  {
    if p.vtype == VtI4 then Int(p.asInteger) else Str(p.asString)
  }

  /** The event a FILETIME property gives: last printed, creation or last save; none for the edit time. */
  function SummaryTime(p: PropertyValue): (r: seq<(int, TimeDesc)>)
    ensures |r| <= 1
  {
    if p.vtype != VtFiletime then []
    else if p.identifier == PIDSI_LASTPRINTED then [(p.asInteger, Described("Document Last Printed Time"))]
    else if p.identifier == PIDSI_CREATE_DTM then [(p.asInteger, Described("Document Creation Time"))]
    else if p.identifier == PIDSI_LASTSAVE_DTM then [(p.asInteger, Described("Document Last Save Time"))]
    else []
  }

  /** _InitFromPropertyValue of the summary information. */
  function SummaryStep(st: Info, p: PropertyValue): Info
  {
    Info(AddNew(st.attributes, SummaryName(p), SummaryValue(p)), st.times + SummaryTime(p))
  }

  /** The properties of one section, in order. */
  function SummaryProps(st: Info, props: seq<PropertyValue>): Info
    decreases |props|
  {
    if props == [] then st else SummaryStep(SummaryProps(st, props[..|props| - 1]), props[|props| - 1])
  }

  /** The sections of a property set; only those of the summary class count. */
  function SummarySections(st: Info, sections: seq<Section>): Info
    decreases |sections|
  {
    if sections == [] then st
    else
      var before := SummarySections(st, sections[..|sections| - 1]);
      var s := sections[|sections| - 1];
      if s.classId != SUMMARY_CLASS_ID then before else SummaryProps(before, s.properties)
  }

  /** OleCfSummaryInfoEvent: a FILETIME event named 'Summary Information' with the gathered attributes. */
  datatype SummaryEvent = SummaryEvent(timestamp: int, timestampDesc: TimeDesc, name: string, attributes: Attributes)

  function NewSummaryEvent(timestamp: int, usage: TimeDesc, attrs: Attributes): SummaryEvent
  {
    SummaryEvent(FromFiletime(timestamp), usage, "Summary Information", attrs)
  }

  /** The events of the gathered times, in order. */
  function TimeEvents(times: seq<(int, TimeDesc)>, attrs: Attributes): (r: seq<SummaryEvent>)
    ensures |r| == |times|
    ensures forall i :: 0 <= i < |times| ==> r[i] == NewSummaryEvent(times[i].0, times[i].1, attrs)
  {
    if times == [] then [] else TimeEvents(times[..|times| - 1], attrs) + [NewSummaryEvent(times[|times| - 1].0, times[|times| - 1].1, attrs)]
  }

  /** GetEventObjects: the property events, then the root's creation and modification when set. */
  function SummaryEvents(times: seq<(int, TimeDesc)>, attrs: Attributes, rootCreation: int, rootModification: int): seq<SummaryEvent>
  {
    TimeEvents(times, attrs) +
    (if rootCreation != 0 then [NewSummaryEvent(rootCreation, CreationTime, attrs)] else []) +
    (if rootModification != 0 then [NewSummaryEvent(rootModification, ModificationTime, attrs)] else [])
  }

  /** A value already gathered is never replaced by later properties. */
  lemma {:induction false} SummaryPropsKeep(st: Info, props: seq<PropertyValue>)
    ensures forall k :: k in st.attributes ==>
      (k in SummaryProps(st, props).attributes && SummaryProps(st, props).attributes[k] == st.attributes[k])
    ensures |st.times| <= |SummaryProps(st, props).times| && SummaryProps(st, props).times[..|st.times|] == st.times
    decreases |props|
  {
    if props != [] {
      SummaryPropsKeep(st, props[..|props| - 1]);
    }
  }

  lemma {:induction false} SummarySectionsKeep(st: Info, sections: seq<Section>)
    ensures forall k :: k in st.attributes ==>
      (k in SummarySections(st, sections).attributes && SummarySections(st, sections).attributes[k] == st.attributes[k])
    decreases |sections|
  {
    if sections != [] {
      var before := SummarySections(st, sections[..|sections| - 1]);
      SummarySectionsKeep(st, sections[..|sections| - 1]);
      SummaryPropsKeep(before, sections[|sections| - 1].properties);
    }
  }

  /** The first property that names an attribute not yet set gives its value, whatever follows. */
  lemma FirstSummaryValueWins(st: Info, props: seq<PropertyValue>, j: nat, name: string)
    requires j < |props| && SummaryName(props[j]) == Some(name) && name !in st.attributes
    requires forall i :: 0 <= i < j ==> SummaryName(props[i]) != Some(name)
    ensures name in SummaryProps(st, props).attributes
    ensures SummaryProps(st, props).attributes[name] == SummaryValue(props[j])
  {
    var mid := SummaryProps(st, props[..j]);
    NotYetNamed(st, props[..j], name);
    assert props[..j + 1][..j] == props[..j];
    var after := SummaryProps(st, props[..j + 1]);
    assert SummaryProps(st, props[..j + 1]) == SummaryStep(mid, props[j]);
    SuffixProps(st, props, j + 1);
    SummaryPropsKeep(after, props[j + 1..]);
  }

  /** A name no property has named stays unset. */
  lemma {:induction false} NotYetNamed(st: Info, props: seq<PropertyValue>, name: string)
    requires name !in st.attributes
    requires forall i :: 0 <= i < |props| ==> SummaryName(props[i]) != Some(name)
    ensures name !in SummaryProps(st, props).attributes
    decreases |props|
  {
    if props != [] {
      NotYetNamed(st, props[..|props| - 1], name);
    }
  }

  /** Folding all the properties is folding a prefix, then the rest. */
  lemma {:induction false} SuffixProps(st: Info, props: seq<PropertyValue>, n: nat)
    requires n <= |props|
    ensures SummaryProps(st, props) == SummaryProps(SummaryProps(st, props[..n]), props[n..])
    decreases |props|
  {
    if n == |props| {
      assert props[..n] == props;
      assert props[n..] == [];
    } else {
      var init := props[..|props| - 1];
      SuffixProps(st, init, n);
      assert init[..n] == props[..n];
      assert props[n..][..|props[n..]| - 1] == init[n..];
    }
  }

  /** Sections of another class contribute nothing. */
  lemma OtherClassIgnored(st: Info, sections: seq<Section>, s: Section)
    requires s.classId != SUMMARY_CLASS_ID
    ensures SummarySections(st, sections + [s]) == SummarySections(st, sections)
  {
    assert (sections + [s])[..|sections|] == sections;
  }

  /** The edit time and properties of other types add no event. */
  lemma EditTimeIgnored(p: PropertyValue)
    requires p.identifier == PIDSI_EDITTIME || p.vtype != VtFiletime
    ensures SummaryTime(p) == []
  {
  }

  /** The property events come first, in the order the times were met, then creation, then modification. */
  lemma SummaryEventsOrder(times: seq<(int, TimeDesc)>, attrs: Attributes, c: int, m: int)
    ensures var r := SummaryEvents(times, attrs, c, m);
      |r| == |times| + (if c != 0 then 1 else 0) + (if m != 0 then 1 else 0) &&
      (forall i :: 0 <= i < |times| ==> r[i].timestamp == FromFiletime(times[i].0) && r[i].timestampDesc == times[i].1) &&
      (c != 0 ==> r[|times|].timestampDesc == CreationTime && r[|times|].timestamp == FromFiletime(c)) &&
      (m != 0 ==> r[|r| - 1].timestampDesc == ModificationTime && r[|r| - 1].timestamp == FromFiletime(m)) &&
      (forall i :: 0 <= i < |r| ==> r[i].attributes == attrs && r[i].name == "Summary Information")
  {
    var r := SummaryEvents(times, attrs, c, m);
    forall i | 0 <= i < |r| ensures r[i].attributes == attrs && r[i].name == "Summary Information" {
      if i < |times| {
        assert r[i] == TimeEvents(times, attrs)[i];
      }
    }
  }

  /** OleCfSummaryInfo: the attributes and times of an item's summary information. */
  class OleCfSummaryInfo {
    const rootCreationTime: int
    const rootModificationTime: int
    var events: seq<(int, TimeDesc)>
    var attributes: Attributes

    constructor(sections: seq<Section>, rootCreationTime: int, rootModificationTime: int)
      ensures this.rootCreationTime == rootCreationTime && this.rootModificationTime == rootModificationTime
      ensures Info(attributes, events) == SummarySections(Info(map[], []), sections)
    {
      this.rootCreationTime := rootCreationTime;
      this.rootModificationTime := rootModificationTime;
      events := [];
      attributes := map[];
      new;
      InitFromPropertySet(sections);
    }

    /** _InitFromPropertySet: the sections of the summary class, one after the other. */
    method InitFromPropertySet(sections: seq<Section>)
      modifies this
      ensures Info(attributes, events) == SummarySections(old(Info(attributes, events)), sections)
    {
      ghost var start := Info(attributes, events);
      var i := 0;
      while i < |sections|
        invariant 0 <= i <= |sections|
        invariant Info(attributes, events) == SummarySections(start, sections[..i])
      {
        assert sections[..i + 1][..i] == sections[..i];
        if sections[i].classId == SUMMARY_CLASS_ID {
          InitFromSection(sections[i].properties);
        }
        i := i + 1;
      }
      assert sections[..i] == sections;
    }

    method InitFromSection(props: seq<PropertyValue>)
      modifies this
      ensures Info(attributes, events) == SummaryProps(old(Info(attributes, events)), props)
    {
      ghost var start := Info(attributes, events);
      var j := 0;
      while j < |props|
        invariant 0 <= j <= |props|
        invariant Info(attributes, events) == SummaryProps(start, props[..j])
      {
        assert props[..j + 1][..j] == props[..j];
        InitFromPropertyValue(props[j]);
        j := j + 1;
      }
      assert props[..j] == props;
    }

    /** _InitFromPropertyValue: dispatch on the type. */
    method InitFromPropertyValue(p: PropertyValue)
      modifies this
      ensures Info(attributes, events) == SummaryStep(old(Info(attributes, events)), p)
    {
      if p.vtype == VtI2 {
        // The code page is read but not kept.
      } else if p.vtype == VtI4 {
        var name := SummaryInt32Name(p.identifier);
        if name.Some? && name.value !in attributes {
          attributes := attributes[name.value := Int(p.asInteger)];
        }
      } else if p.vtype == VtLpstr || p.vtype == VtLpwstr {
        var name := SummaryStringName(p.identifier);
        if name.Some? && name.value !in attributes {
          attributes := attributes[name.value := Str(p.asString)];
        }
      } else if p.vtype == VtFiletime {
        if p.identifier == PIDSI_LASTPRINTED {
          events := events + [(p.asInteger, Described("Document Last Printed Time"))];
        } else if p.identifier == PIDSI_CREATE_DTM {
          events := events + [(p.asInteger, Described("Document Creation Time"))];
        } else if p.identifier == PIDSI_LASTSAVE_DTM {
          events := events + [(p.asInteger, Described("Document Last Save Time"))];
        }
      }
    }

    /** GetEventObjects. */
    method GetEventObjects() returns (r: seq<SummaryEvent>)
      ensures r == SummaryEvents(events, attributes, rootCreationTime, rootModificationTime)
    {
      r := [];
      var i := 0;
      while i < |events|
        invariant 0 <= i <= |events|
        invariant r == TimeEvents(events[..i], attributes)
      {
        assert events[..i + 1][..i] == events[..i];
        r := r + [NewSummaryEvent(events[i].0, events[i].1, attributes)];
        i := i + 1;
      }
      assert events[..i] == events;
      if rootCreationTime != 0 {
        r := r + [NewSummaryEvent(rootCreationTime, CreationTime, attributes)];
      }
      if rootModificationTime != 0 {
        r := r + [NewSummaryEvent(rootModificationTime, ModificationTime, attributes)];
      }
    }
  }

  /** The events of all the items of SummaryInfoPlugin.GetEntries. */
  function SummaryEntries(items: seq<seq<Section>>, rootCreation: int, rootModification: int): seq<SummaryEvent>
    decreases |items|
  {
    if items == [] then []
    else
      var last := SummarySections(Info(map[], []), items[|items| - 1]);
      SummaryEntries(items[..|items| - 1], rootCreation, rootModification) +
      SummaryEvents(last.times, last.attributes, rootCreation, rootModification)
  }

  /** SummaryInfoPlugin.GetEntries: each item's summary information events; the root's times are given. */
  method SummaryGetEntries(items: seq<seq<Section>>, rootCreation: int, rootModification: int)
      returns (r: seq<SummaryEvent>)
    ensures r == SummaryEntries(items, rootCreation, rootModification)
  {
    r := [];
    var i := 0;
    while i < |items|
      invariant 0 <= i <= |items|
      invariant r == SummaryEntries(items[..i], rootCreation, rootModification)
    {
      assert items[..i + 1][..i] == items[..i];
      var info := new OleCfSummaryInfo(items[i], rootCreation, rootModification);
      var events := info.GetEventObjects();
      r := r + events;
      i := i + 1;
    }
    assert items[..i] == items;
  }

  // ---------------------------------------------------------------------
  // Document summary information

  const DOCUMENT_SUMMARY_CLASS_ID: string := "d5cdd502-2e9c-101b-9397-08002b2cf9ae"

  const PIDDSI_VERSION: int := 0x0017

  /** _PROPERTY_NAMES_BOOL of the document summary information. */
  function DocBoolName(id: int): Option<string>
  {
    if id == 0x0013 then Some("shared_document") else None
  }

  /** _PROPERTY_NAMES_INT32 of the document summary information. */
  function DocInt32Name(id: int): Option<string>
  {
    if id == 0x0004 then Some("number_of_bytes")
    else if id == 0x0005 then Some("number_of_lines")
    else if id == 0x0006 then Some("number_of_paragraphs")
    else if id == 0x0007 then Some("number_of_slides")
    else if id == 0x0008 then Some("number_of_notes")
    else if id == 0x0009 then Some("number_of_hidden_slides")
    else if id == 0x000a then Some("number_of_clips")
    else if id == 0x0011 then Some("number_of_characters_with_white_space")
    else if id == PIDDSI_VERSION then Some("application_version")
    else None
  }

  /** _PROPERTY_NAMES_STRING of the document summary information. */
  function DocStringName(id: int): Option<string>
  {
    if id == 0x000e then Some("manager")
    else if id == 0x000f then Some("company")
    else if id == 0x001a then Some("content_type")
    else if id == 0x001b then Some("content_status")
    else if id == 0x001c then Some("language")
    else if id == 0x001d then Some("document_version")
    else None
  }

  /** '<major>.<minor>' of a version: its upper and lower 16 bits (Python's >> and & on integers). */
  function VersionText(v: int): string
  {
    IntToStr(v / 0x1_0000) + "." + IntToStr(v % 0x1_0000)
  }

  /** _InitFromPropertyValue of the document summary information. */
  function DocStep(attrs: Attributes, p: PropertyValue): Attributes
  {
    if p.vtype == VtI4 then
      if p.identifier == PIDDSI_VERSION then attrs["application_version" := Str(VersionText(p.asInteger))]
      else AddNew(attrs, DocInt32Name(p.identifier), Int(p.asInteger))
    else if p.vtype == VtBool then AddNew(attrs, DocBoolName(p.identifier), Bool(p.asBool))
    else if p.vtype == VtLpstr || p.vtype == VtLpwstr then AddNew(attrs, DocStringName(p.identifier), Str(p.asString))
    else attrs
  }

  function DocProps(attrs: Attributes, props: seq<PropertyValue>): Attributes
    decreases |props|
  {
    if props == [] then attrs else DocStep(DocProps(attrs, props[..|props| - 1]), props[|props| - 1])
  }

  function DocSections(attrs: Attributes, sections: seq<Section>): Attributes
    decreases |sections|
  {
    if sections == [] then attrs
    else
      var before := DocSections(attrs, sections[..|sections| - 1]);
      var s := sections[|sections| - 1];
      if s.classId != DOCUMENT_SUMMARY_CLASS_ID then before else DocProps(before, s.properties)
  }

  /** A version property sets the version whatever was there; other attributes keep their first value. */
  lemma DocStepEffect(attrs: Attributes, p: PropertyValue)
    ensures p.vtype == VtI4 && p.identifier == PIDDSI_VERSION ==>
      DocStep(attrs, p) == attrs["application_version" := Str(VersionText(p.asInteger))]
    ensures forall k :: k in attrs && k != "application_version" ==> k in DocStep(attrs, p) && DocStep(attrs, p)[k] == attrs[k]
  {
  }

  /** The version text splits the value into 16-bit halves. */
  lemma VersionHalves(v: int)
    requires 0 <= v < 0x1_0000_0000
    ensures VersionText(v) == NatToStr(v / 0x1_0000) + "." + NatToStr(v % 0x1_0000)
    ensures v / 0x1_0000 < 0x1_0000 && v % 0x1_0000 < 0x1_0000 && (v / 0x1_0000) * 0x1_0000 + v % 0x1_0000 == v
  {
  }

  /** Attributes other than the version are never replaced by later properties. */
  lemma {:induction false} DocPropsKeep(attrs: Attributes, props: seq<PropertyValue>)
    ensures forall k :: k in attrs && k != "application_version" ==>
      k in DocProps(attrs, props) && DocProps(attrs, props)[k] == attrs[k]
    decreases |props|
  {
    if props != [] {
      DocPropsKeep(attrs, props[..|props| - 1]);
      DocStepEffect(DocProps(attrs, props[..|props| - 1]), props[|props| - 1]);
    }
  }

  /** The last version property decides the version. */
  lemma LastVersionWins(attrs: Attributes, props: seq<PropertyValue>, v: int)
    requires props != [] && props[|props| - 1].vtype == VtI4 && props[|props| - 1].identifier == PIDDSI_VERSION
    requires props[|props| - 1].asInteger == v
    ensures DocProps(attrs, props)["application_version"] == Str(VersionText(v))
  {
  }

  /** An event's state, to state what the plugin builds. */
  datatype DocEvent = DocEvent(timestamp: int, timestampDesc: TimeDesc, name: string, attributes: Attributes)

  /** OleCfDocumentSummaryInfoEvent: a FILETIME event whose attributes the item's properties set. */
  class OleCfDocumentSummaryInfoEvent {
    const timestamp: int
    const timestampDesc: TimeDesc
    const name: string
    var attributes: Attributes

    constructor(timestamp: int, usage: TimeDesc, sections: seq<Section>)
      ensures this.timestamp == FromFiletime(timestamp) && timestampDesc == usage
      ensures name == "Document Summary Information"
      ensures attributes == DocSections(map[], sections)
    {
      this.timestamp := FromFiletime(timestamp);
      timestampDesc := usage;
      name := "Document Summary Information";
      attributes := map[];
      new;
      InitFromPropertySet(sections);
    }

    function State(): DocEvent
      reads this
    {
      DocEvent(timestamp, timestampDesc, name, attributes)
    }

    method InitFromPropertySet(sections: seq<Section>)
      modifies this
      ensures attributes == DocSections(old(attributes), sections)
    {
      ghost var start := attributes;
      var i := 0;
      while i < |sections|
        invariant 0 <= i <= |sections|
        invariant attributes == DocSections(start, sections[..i])
      {
        assert sections[..i + 1][..i] == sections[..i];
        if sections[i].classId == DOCUMENT_SUMMARY_CLASS_ID {
          InitFromSection(sections[i].properties);
        }
        i := i + 1;
      }
      assert sections[..i] == sections;
    }

    method InitFromSection(props: seq<PropertyValue>)
      modifies this
      ensures attributes == DocProps(old(attributes), props)
    {
      ghost var start := attributes;
      var j := 0;
      while j < |props|
        invariant 0 <= j <= |props|
        invariant attributes == DocProps(start, props[..j])
      {
        assert props[..j + 1][..j] == props[..j];
        InitFromPropertyValue(props[j]);
        j := j + 1;
      }
      assert props[..j] == props;
    }

    /** setattr for the version; setattr unless hasattr for the rest. */
    method InitFromPropertyValue(p: PropertyValue)
      modifies this
      ensures attributes == DocStep(old(attributes), p)
    {
      if p.vtype == VtI2 {
        // The code page is read but not kept.
      } else if p.vtype == VtI4 {
        var propertyName := DocInt32Name(p.identifier);
        if p.identifier == PIDDSI_VERSION {
          attributes := attributes[propertyName.value := Str(IntToStr(p.asInteger / 0x1_0000) + "." + IntToStr(p.asInteger % 0x1_0000))];
        } else if propertyName.Some? && propertyName.value !in attributes {
          attributes := attributes[propertyName.value := Int(p.asInteger)];
        }
      } else if p.vtype == VtBool {
        var propertyName := DocBoolName(p.identifier);
        if propertyName.Some? && propertyName.value !in attributes {
          attributes := attributes[propertyName.value := Bool(p.asBool)];
        }
      } else if p.vtype == VtLpstr || p.vtype == VtLpwstr {
        var propertyName := DocStringName(p.identifier);
        if propertyName.Some? && propertyName.value !in attributes {
          attributes := attributes[propertyName.value := Str(p.asString)];
        }
      }
    }
  }

  /** The events of one item: creation then modification, each when the root's time is set. */
  function ItemEvents(attrs: Attributes, creation: int, modification: int): (r: seq<DocEvent>)
    ensures |r| == (if creation != 0 then 1 else 0) + (if modification != 0 then 1 else 0)
    ensures forall e :: e in r ==> e.attributes == attrs && e.name == "Document Summary Information"
  {
    (if creation != 0 then [DocEvent(FromFiletime(creation), CreationTime, "Document Summary Information", attrs)] else []) +
    (if modification != 0 then [DocEvent(FromFiletime(modification), ModificationTime, "Document Summary Information", attrs)] else [])
  }

  /** The events of DocumentSummaryPlugin.GetEntries, item after item. */
  function DocEntries(items: seq<seq<Section>>, creation: int, modification: int): seq<DocEvent>
    decreases |items|
  {
    if items == [] then []
    else
      DocEntries(items[..|items| - 1], creation, modification) +
      ItemEvents(DocSections(map[], items[|items| - 1]), creation, modification)
  }

  /** Each item gives one event per set root time. */
  lemma {:induction false} DocEntriesCount(items: seq<seq<Section>>, creation: int, modification: int)
    ensures |DocEntries(items, creation, modification)| ==
      |items| * ((if creation != 0 then 1 else 0) + (if modification != 0 then 1 else 0))
    decreases |items|
  {
    if items != [] {
      DocEntriesCount(items[..|items| - 1], creation, modification);
    }
  }

  function States(events: seq<OleCfDocumentSummaryInfoEvent>): seq<DocEvent>
    reads set e | e in events
  {
    if events == [] then [] else States(events[..|events| - 1]) + [events[|events| - 1].State()]
  }

  lemma {:induction false} StatesConcat(a: seq<OleCfDocumentSummaryInfoEvent>, b: seq<OleCfDocumentSummaryInfoEvent>)
    ensures States(a + b) == States(a) + States(b)
    decreases |b|
  {
    if b == [] {
      assert a + b == a;
    } else {
      var init := b[..|b| - 1];
      StatesConcat(a, init);
      assert (a + b)[..|a + b| - 1] == a + init;
    }
  }

  /** The loop body of DocumentSummaryPlugin.GetEntries for one item. */
  method EntriesOfItem(item: seq<Section>, creation: int, modification: int)
      returns (r: seq<OleCfDocumentSummaryInfoEvent>)
    ensures fresh(set e | e in r)
    ensures States(r) == ItemEvents(DocSections(map[], item), creation, modification)
  {
    ghost var attrs := DocSections(map[], item);
    r := [];
    if creation != 0 {
      var e := new OleCfDocumentSummaryInfoEvent(creation, CreationTime, item);
      r := [e];
      assert States(r) == States([]) + [e.State()];
    }
    assert States(r) == ItemEvents(attrs, creation, 0);
    if modification != 0 {
      var e := new OleCfDocumentSummaryInfoEvent(modification, ModificationTime, item);
      assert (r + [e])[..|r|] == r;
      r := r + [e];
      assert States(r) == ItemEvents(attrs, creation, 0) + [e.State()];
    }
  }

  /** DocumentSummaryPlugin.GetEntries; the root's times are given. */
  method DocGetEntries(items: seq<seq<Section>>, creation: int, modification: int)
      returns (r: seq<OleCfDocumentSummaryInfoEvent>)
    ensures fresh(set e | e in r)
    ensures States(r) == DocEntries(items, creation, modification)
  {
    r := [];
    var i := 0;
    while i < |items|
      invariant 0 <= i <= |items|
      invariant fresh(set e | e in r)
      invariant States(r) == DocEntries(items[..i], creation, modification)
    {
      assert items[..i + 1][..i] == items[..i];
      var es := EntriesOfItem(items[i], creation, modification);
      StatesConcat(r, es);
      r := r + es;
      i := i + 1;
    }
    assert items[..i] == items;
  }
}
