/** A decoded JSON document as Python's `json.loads` hands it over, and the two
    Python readings of such a value the modelled code relies on: truthiness
    (`if not x`) and arithmetic comparison (`x < 12.0`). */
module Json {
  import opened Wrappers
  import opened Text

  /** JSON numbers, integral or not, are kept as exact reals. */
  datatype Value =
    | Null
    | Bool(b: bool)
    | Num(n: real)
    | Str(s: string)
    | Arr(items: seq<Value>)
    | Obj(fields: map<string, Value>)

  /** Python truthiness: `None`, `False`, `0`, `""`, `[]` and `{}` are false. */
  function Truthy(v: Value): (t: bool)
    ensures v.Str? ==> (t <==> v.s != "")
    ensures v.Null? ==> !t
  {
    match v
    case Null => false
    case Bool(b) => b
    case Num(n) => n != 0.0
    case Str(s) => s != ""
    case Arr(items) => items != []
    case Obj(fields) => fields != map[]
  }

  /** The number Python compares or divides when handed this value: a bool
      behaves as 0 or 1; any other non-number raises TypeError (None). */
  function AsNumber(v: Value): (r: Option<real>)
    ensures r.Some? <==> v.Num? || v.Bool?
    ensures v.Num? ==> r == Some(v.n)
    ensures v.Bool? ==> r == Some(if v.b then 1.0 else 0.0)
  {
    match v
    case Num(n) => Some(n)
    case Bool(b) => Some(if b then 1.0 else 0.0)
    case _ => None
  }

  // ---------------------------------------------------------------------------
  // `key in doc` and `doc[key]` with a string key
  // ---------------------------------------------------------------------------

  /** The values `in` accepts on its right: a dict, a list or a str. On any
      other value `key in doc` raises TypeError. */
  predicate IsContainer(doc: Value) {
    doc.Obj? || doc.Arr? || doc.Str?
  }

  /** Python's `key in doc`: a dict tests its keys, a list its elements, a
      str its substrings. */
  function In(doc: Value, key: string): (b: bool)
    requires IsContainer(doc)
    ensures doc.Obj? ==> (b <==> key in doc.fields)
    ensures doc.Arr? ==> (b <==> Str(key) in doc.items)
    ensures doc.Str? ==> b == Contains(doc.s, key)
  {
    match doc
    case Obj(fields) => key in fields
    case Arr(items) => Str(key) in items
    case Str(s) => Contains(s, key)
  }

  /** Python's `doc[key]`: only a dict holding the key gives a value; a missing
      key raises KeyError and a list or str raises TypeError (None). */
  function Get(doc: Value, key: string): (r: Option<Value>)
    ensures r.Some? <==> doc.Obj? && key in doc.fields
    ensures r.Some? ==> r.value == doc.fields[key]
  {
    if doc.Obj? && key in doc.fields then Some(doc.fields[key]) else None
  }
}
