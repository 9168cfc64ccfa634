/** Python values as `json.loads` produces them, and the Python operations the
    chat client applies to such values without knowing their type: `key in x`,
    `x[key]`, `x.get(key, default)`, truth testing and `str(x)`.  Applied to a
    value of the wrong type, the first three raise, as Python does. */
module PyJson {
  import opened PyText

  datatype Option<+T> = None | Some(value: T)

  type Bytes = seq<bv8>

  /** A decoded JSON value.  Numbers are kept as reals (Python's int and float
      alike); an object is a dict from keys to values. */
  datatype Json =
    | JNull
    | JBool(b: bool)
    | JNum(n: real)
    | JStr(s: string)
    | JArr(items: seq<Json>)
    | JObj(fields: map<string, Json>)

  /** Python's `{}` */
  const EmptyObj: Json := JObj(map[])

  /** The exceptions the modelled code can raise. */
  datatype Fault =
    | TypeError         // `in` on a non-container, `[]` on a non-dict, iterating a non-iterable
    | AttributeError    // `.get` on a value that is not a dict
    | KeyError          // `d[key]` for a missing key
    | UnicodeError      // bytes that are not UTF-8
    | JsonDecodeError   // `json.loads` outside the event-stream handler
    | TransportError(reason: string)  // the runtime call or the response stream failed

  /** A Python evaluation: a value, or the exception it raised. */
  datatype Py<+T> = Ok(value: T) | Raise(fault: Fault) {
    predicate IsFailure() { Raise? }

    function PropagateFailure<U>(): Py<U>
      requires Raise?
    {
      Raise(fault)
    }

    function Extract(): T
      requires Ok?
    {
      value
    }
  }

  /** Python truth testing of a decoded value. */
  predicate Truthy(j: Json) {
    match j
    case JNull => false
    case JBool(b) => b
    case JNum(n) => n != 0.0
    case JStr(s) => s != ""
    case JArr(items) => items != []
    case JObj(fields) => fields != map[]
  }

  /** Lists and dicts cannot be dict keys or set members. */
  predicate Hashable(j: Json) {
    !j.JArr? && !j.JObj?
  }

  /** `key in x`: a key test on a dict, a substring test on a string, an element
      test on a list; any other value raises TypeError. */
  function Contains(x: Json, key: string): Py<bool> {
    match x
    case JObj(m) => Ok(key in m)
    case JStr(s) => Ok(Substring(key, s))
    case JArr(items) => Ok(JStr(key) in items)
    case _ => Raise(TypeError)
  }

  /** `x[key]` with a string key: only a dict can be indexed by a string. */
  function Index(x: Json, key: string): Py<Json> {
    match x
    case JObj(m) => if key in m then Ok(m[key]) else Raise(KeyError)
    case _ => Raise(TypeError)
  }

  /** `d.get(key, default)` on a known dict. */
  function Lookup(m: map<string, Json>, key: string, default: Json): Json {
    if key in m then m[key] else default
  }

  /** `x.get(key, default)`: only a dict has `get`. */
  function Get(x: Json, key: string, default: Json): Py<Json> {
    match x
    case JObj(m) => Ok(Lookup(m, key, default))
    case _ => Raise(AttributeError)
  }

  /** `str(x)`: a string is itself; every other value is printed by `repr`,
      which is Python's and is taken as given. */
  function Str(repr: Json -> string, x: Json): string {
    if x.JStr? then x.s else repr(x)
  }
}
