/**
 * Decoded JSON payloads and the handful of Python operations the weather
 * code applies to them (`.get`, `[0]`, truth tests, `+` and `/`), each with
 * the exception Python raises when the value has the wrong shape.
 * JSON numbers are exact reals; JSON `true`/`false` are not modelled.
 */
module JsonValues {
  import opened Wrappers

  datatype Json =
    | JNull
    | JNum(num: real)
    | JStr(str: string)
    | JArr(items: seq<Json>)
    | JObj(fields: map<string, Json>)

  /** The Python exceptions the modelled code raises or catches. */
  datatype PyError =
    | AttributeError(msg: string)
    | KeyError(msg: string)
    | IndexError(msg: string)
    | TypeError(msg: string)
    | ValueError(msg: string)
    | RequestError(msg: string)  // any `requests.exceptions.RequestException`
    | Exception(msg: string)     // a plain `Exception(...)`

  /** The Python type name `json.loads` gives each kind of value. */
  function TypeName(j: Json): string {
    match j
    case JNull => "NoneType"
    case JNum(_) => "float"
    case JStr(_) => "str"
    case JArr(_) => "list"
    case JObj(_) => "dict"
  }

  /** `j.get(key, default)`: only a dict has `.get`. */
  function Get(j: Json, key: string, default: Json): (r: Result<Json, PyError>)
    ensures r.Ok? <==> j.JObj?
    ensures r.Ok? && key !in j.fields ==> r.value == default
    ensures r.Ok? && key in j.fields ==> r.value == j.fields[key]
  {
    if j.JObj? then Ok(if key in j.fields then j.fields[key] else default)
    else Err(AttributeError("'" + TypeName(j) + "' object has no attribute 'get'"))
  }

  /** `j[0]`, with the error each kind of value raises. */
  function Index0(j: Json): (r: Result<Json, PyError>)
    ensures r.Ok? <==> (j.JArr? && j.items != []) || (j.JStr? && j.str != [])
    ensures j.JArr? && j.items != [] ==> r == Ok(j.items[0])
  {
    match j
    case JArr(items) =>
      if items == [] then Err(IndexError("list index out of range")) else Ok(items[0])
    case JStr(s) =>
      if s == [] then Err(IndexError("string index out of range")) else Ok(JStr([s[0]]))
    case JObj(_) => Err(KeyError("0"))
    case _ => Err(TypeError("'" + TypeName(j) + "' object is not subscriptable"))
  }

  /** Python truthiness. */
  predicate Truthy(j: Json) {
    match j
    case JNull => false
    case JNum(n) => n != 0.0
    case JStr(s) => s != []
    case JArr(items) => items != []
    case JObj(fields) => fields != map[]
  }

  /** `left + j` (or `left += j`) for a numeric left operand. */
  function AddNumber(acc: real, j: Json, op: string): (r: Result<real, PyError>)
    ensures r.Ok? <==> j.JNum?
    ensures j.JNum? ==> r.value == acc + j.num
  {
    if j.JNum? then Ok(acc + j.num)
    else Err(TypeError("unsupported operand type(s) for " + op + ": 'int' and '" + TypeName(j) + "'"))
  }

  /** `j / 2.54`, the centimetre-to-inch conversion. */
  function CmToInches(j: Json): (r: Result<real, PyError>)
    ensures r.Ok? <==> j.JNum?
    ensures r.Ok? ==> r.value * 2.54 == j.num
  {
    if j.JNum? then Ok(j.num / 2.54)
    else Err(TypeError("unsupported operand type(s) for /: '" + TypeName(j) + "' and 'float'"))
  }

  /** `abs()` of an amount. */
  function Abs(x: real): real {
    if x < 0.0 then -x else x
  }
}
