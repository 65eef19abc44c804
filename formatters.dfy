/**
 * The event object as the formatters see it: a data type fixed at
 * creation and a set of named attributes that GetMessages may add to or
 * overwrite in place (Python's hasattr/getattr/setattr).
 */
module Formatters {
  /** An attribute value as the parsers store it; Null is Python's None. */
  datatype Value =
    | Null
    | Str(s: string)
    | Int(i: int)
    | Bool(b: bool)
    | Ints(ints: seq<int>)
    | Strs(strs: seq<string>)

  type Attributes = map<string, Value>

  /** Python truthiness of an attribute value. */
  predicate Truthy(v: Value)
  {
    match v
    case Null => false
    case Str(s) => s != []
    case Int(i) => i != 0
    case Bool(b) => b
    case Ints(ints) => ints != []
    case Strs(strs) => strs != []
  }

  /** getattr(event, name, default). */
  function GetAttr(a: Attributes, name: string, default: Value): Value
  {
    if name in a then a[name] else default
  }

  class EventObject {
    const dataType: string
    var attributes: Attributes

    constructor(dataType: string, attributes: Attributes)
      ensures this.dataType == dataType && this.attributes == attributes
    {
      this.dataType := dataType;
      this.attributes := attributes;
    }

    predicate HasAttribute(name: string)
      reads this
    {
      name in attributes
    }

    /** setattr: the one attribute is (re)bound and nothing else changes. */
    method SetAttribute(name: string, value: Value)
      modifies this
      ensures attributes == old(attributes)[name := value]
    {
      attributes := attributes[name := value];
    }
  }
}
