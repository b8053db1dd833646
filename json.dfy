/** The decoded JSON documents the providers answer with, and the few Python
    operations the server applies to them: `dict.get`, truthiness, `or`,
    `str()` and slicing. */
module Json {
  import opened Wrappers
  import opened Text

  /** A value `json.loads` can produce. Numbers are integers; an object keeps
      its members in document order. */
  datatype Json =
    | JNull
    | JBool(b: bool)
    | JInt(i: int)
    | JStr(s: string)
    | JArr(items: seq<Json>)
    | JObj(fields: seq<(string, Json)>)

  const EmptyObj: Json := JObj([])

  /** Python's truth value of the decoded value. */
  predicate Truthy(j: Json)
  {
    match j
    case JNull => false
    case JBool(b) => b
    case JInt(i) => i != 0
    case JStr(s) => s != ""
    case JArr(items) => items != []
    case JObj(fields) => fields != []
  }

  /** `a or b`. */
  function Or(a: Json, b: Json): (r: Json)
    ensures Truthy(r) <==> Truthy(a) || Truthy(b)
  {
    if Truthy(a) then a else b
  }

  /** Whether `v[:50]` succeeds: only strings and lists support slicing. */
  predicate Sliceable(j: Json)
  {
    j.JStr? || j.JArr?
  }

  /** Python's name for the type of the decoded value. */
  function TypeName(j: Json): string
  {
    match j
    case JNull => "NoneType"
    case JBool(_) => "bool"
    case JInt(_) => "int"
    case JStr(_) => "str"
    case JArr(_) => "list"
    case JObj(_) => "dict"
  }

  /** The member bound to `key`; when a key repeats, the last binding wins, as in `json.loads`. */
  function Lookup(fields: seq<(string, Json)>, key: string): (r: Option<Json>)
    ensures r.Some? <==> exists k :: 0 <= k < |fields| && fields[k].0 == key
    ensures r.Some? ==> exists k :: 0 <= k < |fields| && fields[k] == (key, r.value)
                                    && forall j :: k < j < |fields| ==> fields[j].0 != key
  {
    if fields == [] then None
    else if fields[|fields| - 1].0 == key then Some(fields[|fields| - 1].1)
    else Lookup(fields[..|fields| - 1], key)
  }

  /** `o.get(key, default)` on a value already known to be a dict. */
  function Field(o: Json, key: string, default: Json): Json
    requires o.JObj?
  {
    match Lookup(o.fields, key)
    case Some(v) => v
    case None => default
  }

  /** `o.get(key, default)`: anything but a dict raises `AttributeError`. */
  function Get(o: Json, key: string, default: Json): (r: Result<Json, string>)
    ensures r.Success? <==> o.JObj?
  {
    if o.JObj? then Success(Field(o, key, default))
    else Failure("'" + TypeName(o) + "' object has no attribute 'get'")
  }

  /** `", ".join(parts)`. */
  function Join(parts: seq<string>): string
  {
    if parts == [] then ""
    else if |parts| == 1 then parts[0]
    else Join(parts[..|parts| - 1]) + ", " + parts[|parts| - 1]
  }

  /** `repr(v)`; strings are quoted with `'` and not escaped. */
  function Repr(j: Json): (r: string)
    ensures |r| > 0
  {
    match j
    case JNull => "None"
    case JBool(b) => if b then "True" else "False"
    case JInt(i) => Decimal(i)
    case JStr(s) => "'" + s + "'"
    case JArr(items) =>
      "[" + Join(seq(|items|, k requires 0 <= k < |items| => Repr(items[k]))) + "]"
    case JObj(fields) =>
      "{" + Join(seq(|fields|, k requires 0 <= k < |fields| =>
                       "'" + fields[k].0 + "': " + Repr(fields[k].1))) + "}"
  }

  /** `str(v)`: a string is itself, anything else its `repr`. */
  function Str(j: Json): (r: string)
    ensures !j.JStr? ==> |r| > 0
  {
    if j.JStr? then j.s else Repr(j)
  }
}
