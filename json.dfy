/** Decoded JSON values as the Python code sees them (dicts, lists, str, int, bool, None),
    with the few Python operations the core applies to them. */
module Json {
  import opened Exceptions

  /** JSON numbers are integers here; fractional numbers are not part of this model. */
  datatype Json =
    | JNull
    | JBool(b: bool)
    | JInt(i: int)
    | JStr(s: string)
    | JArray(items: seq<Json>)
    | JObject(fields: map<string, Json>)

  type Object = map<string, Json>

  /** Python truthiness: None, False, 0, "", [] and {} are false. */
  predicate Truthy(j: Json) {
    match j
    case JNull => false
    case JBool(b) => b
    case JInt(i) => i != 0
    case JStr(s) => s != ""
    case JArray(items) => items != []
    case JObject(fields) => fields != map[]
  }

  /** `j[key]`: a KeyError on a dict without the key, a type error on anything but a dict. */
  function Index(j: Json, key: string): (r: Result<Json>)
    ensures r.Ok? <==> j.JObject? && key in j.fields
    ensures r.Ok? ==> r.value == j.fields[key]
    ensures j.JObject? && key !in j.fields ==> r == Err(KeyError(key))
    ensures !j.JObject? ==> r == Err(WrongType)
  {
    match j
    case JObject(fields) => if key in fields then Ok(fields[key]) else Err(KeyError(key))
    case _ => Err(WrongType)
  }

  /** `d[key]` on a dict. */
  function Lookup(d: Object, key: string): (r: Result<Json>)
    ensures r.Ok? <==> key in d
    ensures r.Ok? ==> r.value == d[key]
    ensures r.Err? ==> r.error == KeyError(key)
  {
    if key in d then Ok(d[key]) else Err(KeyError(key))
  }

  /** A value used as a dict (`.get`, `.pop`, item assignment). */
  function AsObject(j: Json): (r: Result<Object>)
    ensures r.Ok? <==> j.JObject?
    ensures r.Ok? ==> JObject(r.value) == j
  {
    if j.JObject? then Ok(j.fields) else Err(WrongType)
  }

  /** `j.pop(key)`: the dict without `key`; a KeyError when the dict lacks it, a type
      error when `j` is not a dict. */
  function Pop(j: Json, key: string): (r: Result<Object>)
    ensures r.Ok? <==> j.JObject? && key in j.fields
    ensures r.Ok? ==> r.value.Keys == j.fields.Keys - {key}
    ensures r.Ok? ==> forall k :: k in r.value ==> r.value[k] == j.fields[k]
    ensures j.JObject? && key !in j.fields ==> r == Err(KeyError(key))
    ensures !j.JObject? ==> r == Err(WrongType)
  {
    match j
    case JObject(fields) => if key in fields then Ok(fields - {key}) else Err(KeyError(key))
    case _ => Err(WrongType)
  }

  /** A value used as a number in arithmetic; Python's bool is an int (True == 1). */
  function AsInt(j: Json): (r: Result<int>)
    ensures r.Ok? <==> j.JInt? || j.JBool?
    ensures j.JInt? ==> r == Ok(j.i)
    ensures j.JBool? ==> r == Ok(if j.b then 1 else 0)
  {
    match j
    case JInt(i) => Ok(i)
    case JBool(b) => Ok(if b then 1 else 0)
    case _ => Err(WrongType)
  }

  /** A value used as a str. */
  function AsStr(j: Json): (r: Result<string>)
    ensures r.Ok? <==> j.JStr?
    ensures r.Ok? ==> JStr(r.value) == j
  {
    if j.JStr? then Ok(j.s) else Err(WrongType)
  }

  /** `d.get(key, default)` for a numeric field. */
  function GetInt(d: Object, key: string, default: int): (r: Result<int>)
    ensures key !in d ==> r == Ok(default)
    ensures key in d ==> r == AsInt(d[key])
  {
    if key in d then AsInt(d[key]) else Ok(default)
  }

  /** `d.get(key, default)` for a str field. */
  function GetStr(d: Object, key: string, default: string): (r: Result<string>)
    ensures key !in d ==> r == Ok(default)
    ensures key in d ==> r == AsStr(d[key])
  {
    if key in d then AsStr(d[key]) else Ok(default)
  }

  /** The elements a `for x in j` loop visits, as far as the core's loops can use them:
      the items of a list; nothing for an empty dict or an empty str. A non-empty dict
      or str yields str keys or characters, which the loop bodies of the core then index
      or `.pop`, a type error; the model raises that error at once. Other values are not
      iterable. */
  function Iterable(j: Json): (r: Result<seq<Json>>)
    ensures j.JArray? ==> r == Ok(j.items)
    ensures r.Ok? && !j.JArray? ==> r.value == [] && !Truthy(j)
    ensures r.Err? ==> r.error == WrongType
  {
    match j
    case JArray(items) => Ok(items)
    case JObject(fields) => if fields == map[] then Ok([]) else Err(WrongType)
    case JStr(s) => if s == "" then Ok([]) else Err(WrongType)
    case _ => Err(WrongType)
  }
}
