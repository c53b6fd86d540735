/** Decoded JSON values, and the few Python behaviours of them that the
    webhook handlers rely on: truthiness, `dict.get`, use as a dict key,
    and the text of the exceptions raised when a value has the wrong type. */
module Json {
  import opened Wrappers

  /** A value produced by `json.loads`.  JSON `null` and a missing key both
      read as Python's `None`, which is `JNull` here. */
  datatype Json =
    | JNull
    | JBool(b: bool)
    | JNum(n: int)
    | JStr(s: string)
    | JArr(items: seq<Json>)
    | JObj(fields: map<string, Json>)

  /** Python truthiness: `not v` holds exactly when `Truthy(v)` does not. */
  predicate Truthy(v: Json) {
    match v
    case JNull => false
    case JBool(b) => b
    case JNum(n) => n != 0
    case JStr(s) => s != ""
    case JArr(items) => items != []
    case JObj(fields) => fields != map[]
  }

  /** `d.get(key, default)` on a dict. */
  function Get(fields: map<string, Json>, key: string, default: Json): Json {
    if key in fields then fields[key] else default
  }

  /** The name of the Python type a decoded value has. */
  function TypeName(v: Json): string {
    match v
    case JNull => "NoneType"
    case JBool(_) => "bool"
    case JNum(_) => "int"
    case JStr(_) => "str"
    case JArr(_) => "list"
    case JObj(_) => "dict"
  }

  /** The text of the AttributeError raised by `v.attr` when `v` has no such method. */
  function NoAttributeMessage(v: Json, attr: string): string {
    "'" + TypeName(v) + "' object has no attribute '" + attr + "'"
  }

  /** The text of the TypeError raised when `v` is used as a dict key. */
  function UnhashableMessage(v: Json): string {
    "unhashable type: '" + TypeName(v) + "'"
  }

  /** A dict key up to Python key equality: `True == 1` and `False == 0`,
      so a boolean and the matching integer select the same entry. */
  datatype Key = NoneKey | IntKey(i: int) | StrKey(s: string)

  /** The key a value selects in a dict, or None when the value is a list or
      a dict, which Python refuses to hash. */
  function HashKey(v: Json): (k: Option<Key>)
    ensures k.None? <==> v.JArr? || v.JObj?
    ensures v.JStr? ==> k == Some(StrKey(v.s))
    ensures v.JNum? ==> k == Some(IntKey(v.n))
  {
    match v
    case JNull => Some(NoneKey)
    case JBool(b) => Some(IntKey(if b then 1 else 0))
    case JNum(n) => Some(IntKey(n))
    case JStr(s) => Some(StrKey(s))
    case JArr(_) => None
    case JObj(_) => None
  }

  /** Two hashable values select the same dict entry exactly when Python
      considers them equal. */
  lemma SameKeyIffPythonEqual(a: Json, b: Json)
    requires HashKey(a).Some? && HashKey(b).Some?
    ensures HashKey(a) == HashKey(b) <==> PythonEqual(a, b)
  {
  }

  /** Python `==` on the scalar values JSON decodes to. */
  predicate PythonEqual(a: Json, b: Json) {
    match (a, b)
    case (JBool(x), JBool(y)) => x == y
    case (JBool(x), JNum(n)) => n == (if x then 1 else 0)
    case (JNum(n), JBool(y)) => n == (if y then 1 else 0)
    case _ => a == b
  }
}
