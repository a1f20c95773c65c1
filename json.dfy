/** JSON values as the Python back end sees them after `json.loads` or
    `request.get_json()`: `None`, booleans, numbers, strings, lists and dicts.
    A dict is its list of items in insertion order; a parsed document never
    repeats a key, so the first item with a key is the only one. The helpers
    below are the Python built-ins the back end applies to such values, each
    returning `None` where Python would raise. */
module Json {
  import opened Wrappers
  import Text

  datatype Json =
    | JNull
    | JBool(b: bool)
    | JNum(n: real)
    | JStr(s: string)
    | JArr(items: seq<Json>)
    | JObj(fields: seq<(string, Json)>)

  /** Python truthiness: `None`, `False`, `0`, `""`, `[]` and `{}` are false. */
  predicate Truthy(j: Json) {
    match j
    case JNull => false
    case JBool(b) => b
    case JNum(n) => n != 0.0
    case JStr(s) => s != []
    case JArr(items) => items != []
    case JObj(fields) => fields != []
  }

  /** `list(d.keys())`. */
  function Keys(d: seq<(string, Json)>): (ks: seq<string>)
    ensures |ks| == |d|
    ensures forall i :: 0 <= i < |d| ==> ks[i] == d[i].0
  {
    if d == [] then [] else [d[0].0] + Keys(d[1..])
  }

  predicate HasKey(d: seq<(string, Json)>, key: string) {
    exists i :: 0 <= i < |d| && d[i].0 == key
  }

  /** `d.get(key, default)`. */
  function Get(d: seq<(string, Json)>, key: string, default: Json): (v: Json)
    ensures !HasKey(d, key) ==> v == default
    ensures HasKey(d, key) ==> exists i :: 0 <= i < |d| && d[i] == (key, v)
  {
    if d == [] then default
    else if d[0].0 == key then d[0].1
    else Get(d[1..], key, default)
  }

  /** The Python name of a value's type, as it appears in error messages
      (a number with no fractional part is taken to be an `int`). */
  function TypeName(j: Json): string {
    match j
    case JNull => "NoneType"
    case JBool(_) => "bool"
    case JNum(n) => if n.Floor as real == n then "int" else "float"
    case JStr(_) => "str"
    case JArr(_) => "list"
    case JObj(_) => "dict"
  }

  /** What `for x in j` visits: list items, the characters of a string, the
      keys of a dict; `None` for a value that is not iterable. */
  function Iterate(j: Json): (r: Option<seq<Json>>)
    ensures j.JArr? ==> r == Some(j.items)
    ensures r.Some? <==> j.JArr? || j.JStr? || j.JObj?
    ensures r.Some? ==> (r.value == [] <==> !Truthy(j))
  {
    match j
    case JArr(items) => Some(items)
    case JStr(s) => Some(seq(|s|, i requires 0 <= i < |s| => JStr([s[i]])))
    case JObj(fields) => Some(seq(|fields|, i requires 0 <= i < |fields| => JStr(fields[i].0)))
    case _ => None
  }

  /** `len(j)`; `None` for a value without a length. */
  function Len(j: Json): (n: Option<nat>)
    ensures n.Some? <==> Iterate(j).Some?
    ensures n.Some? ==> n.value == |Iterate(j).value|
  {
    match j
    case JArr(items) => Some(|items|)
    case JStr(s) => Some(|s|)
    case JObj(fields) => Some(|fields|)
    case _ => None
  }

  /** `key in j` for a string `key`: a key test on a dict, a substring test on
      a string, a membership test on a list; `None` where Python raises. */
  function Contains(j: Json, key: string): (r: Option<bool>)
    ensures r.Some? <==> Iterate(j).Some?
  {
    match j
    case JObj(fields) => Some(HasKey(fields, key))
    case JStr(s) => Some(Text.Contains(s, key, false))
    case JArr(items) => Some(JStr(key) in items)
    case _ => None
  }

  /** The number Python's `sum` adds for a value: booleans count as 0 and 1. */
  function AsNumber(j: Json): Option<real> {
    match j
    case JNum(n) => Some(n)
    case JBool(b) => Some(if b then 1.0 else 0.0)
    case _ => None
  }
}
