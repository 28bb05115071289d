/** JSON-like values as the service manipulates them after `json.loads` or from a
    request body: Python `None`, `bool`, `int`, `str`, `list` and `dict`
    (a `dict` is its list of items in insertion order). */
module Json {
  import opened Wrappers
  import opened Strs

  datatype Json =
    | JNull
    | JBool(b: bool)
    | JInt(i: int)
    | JStr(s: string)
    | JList(items: seq<Json>)
    | JObj(fields: seq<(string, Json)>)

  type Dict = seq<(string, Json)>

  /** The keys of a list of key-value pairs, in order: `list(d)` for a dict. */
  function Keys<V>(kvs: seq<(string, V)>): (r: seq<string>)
    ensures |r| == |kvs| && forall i :: 0 <= i < |kvs| ==> r[i] == kvs[i].0
  {
    if kvs == [] then [] else [kvs[0].0] + Keys(kvs[1..])
  }

  /** `d.get(key)`: the value of the first item with that key. */
  function Get(d: Dict, key: string): (r: Option<Json>)
    ensures r.Some? ==> exists i :: 0 <= i < |d| && d[i] == (key, r.value)
    ensures r.None? ==> forall i :: 0 <= i < |d| ==> d[i].0 != key
  {
    if d == [] then None
    else if d[0].0 == key then Some(d[0].1)
    else Get(d[1..], key)
  }

  /** `key in d` for a dict. */
  predicate HasKey(d: Dict, key: string) {
    Get(d, key).Some?
  }

  /** Python truthiness: `None`, `False`, `0`, `""`, `[]` and `{}` are false. */
  predicate Truthy(j: Json) {
    match j
    case JNull => false
    case JBool(b) => b
    case JInt(i) => i != 0
    case JStr(s) => s != ""
    case JList(xs) => xs != []
    case JObj(fs) => fs != []
  }

  /** `key in node` for a string `key` and a node of any type: a dict key, a list
      element equal to the string, a substring; `TypeError` for scalars that are not strings. */
  function PyIn(key: string, node: Json): Result<bool> {
    match node
    case JObj(fs) => Ok(HasKey(fs, key))
    case JList(xs) => Ok(JStr(key) in xs)
    case JStr(s) => Ok(Contains(s, key))
    case _ => Err("argument of type '" + TypeName(node) + "' is not iterable")
  }

  /** `node[key]` for a string `key`: `KeyError` on a dict without it, `TypeError` on anything else. */
  function Subscript(node: Json, key: string): (r: Result<Json>)
    ensures r.Ok? <==> node.JObj? && HasKey(node.fields, key)
    ensures r.Ok? ==> Get(node.fields, key) == Some(r.value)
  {
    match node
    case JObj(fs) => if HasKey(fs, key) then Ok(Get(fs, key).value) else Err("'" + key + "'")
    case JStr(_) => Err("string indices must be integers, not 'str'")
    case JList(_) => Err("list indices must be integers or slices, not str")
    case _ => Err("'" + TypeName(node) + "' object is not subscriptable")
  }

  predicate IsScalar(j: Json) {
    !j.JList? && !j.JObj?
  }

  /** `type(value).__name__`. */
  function TypeName(j: Json): string {
    match j
    case JNull => "NoneType"
    case JBool(_) => "bool"
    case JInt(_) => "int"
    case JStr(_) => "str"
    case JList(_) => "list"
    case JObj(_) => "dict"
  }

  /** `str(value)` for a scalar value. */
  function ScalarText(j: Json): string
    requires IsScalar(j)
  {
    match j
    case JNull => "None"
    case JBool(b) => if b then "True" else "False"
    case JInt(i) => IntToString(i)
    case JStr(s) => s
  }
}
