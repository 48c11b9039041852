/**
 * The JSON-like values that travel between the client and the embedder, with
 * the Python truthiness and dict lookups the unwrapping code relies on.
 */
module Json {
  import opened Wrappers

  newtype byte = x: int | 0 <= x < 256

  /**
   * A decoded reply body. JNum covers ints and floats alike. JBytes never comes
   * out of the JSON decoder: it is the raw body that _handle_response wraps as
   * {"data": <bytes>} when decoding fails.
   */
  datatype Json =
    | JNull
    | JBool(b: bool)
    | JNum(n: real)
    | JStr(s: string)
    | JArr(items: seq<Json>)
    | JObj(fields: map<string, Json>)
    | JBytes(bytes: seq<byte>)

  /** Python's bool(v): None, False, zero and empty containers are false. */
  predicate Truthy(v: Json) {
    match v
    case JNull => false
    case JBool(b) => b
    case JNum(n) => n != 0.0
    case JStr(s) => s != ""
    case JArr(items) => items != []
    case JObj(fields) => fields != map[]
    case JBytes(bytes) => bytes != []
  }

  /** dict.get(key) on a mapping: the value, or None when the key is absent. */
  function GetOrNull(fields: map<string, Json>, key: string): (r: Json)
    ensures key !in fields ==> r == JNull
    ensures key in fields ==> r == fields[key]
  {
    if key in fields then fields[key] else JNull
  }

  /** Python's `a or b`: the first operand when it is truthy, else the second. */
  function Or(a: Json, b: Json): (r: Json)
    ensures Truthy(a) ==> r == a
    ensures !Truthy(a) ==> r == b
  {
    if Truthy(a) then a else b
  }

  const EmptyObject: Json := JObj(map[])

  /**
   * `if value:` on an Optional[str] (a path, a hint, a source text): given
   * exactly when Python's bool() of it is true, so None and "" are not given.
   */
  function Given(value: Option<string>): (given: bool)
    ensures given <==> value.Some? && Truthy(JStr(value.value))
  {
    value.Some? && value.value != ""
  }
}
