/** The values Python's `json.loads` produces, the Python truthiness and
    `str()` the core applies to them, and the Python renderers the model
    keeps opaque. Decoding itself is not modelled: wherever the source calls
    `json.loads`, the model takes a parameter `parse: string -> Option<Json>`
    whose `None` is a `JSONDecodeError`. */
module Json {
  import opened Wrappers
  import opened PyText

  /** A decoded JSON value. Objects are dictionaries; key order only matters
      to the renderers, which are opaque. */
  datatype Json =
    | JNull
    | JBool(b: bool)
    | JInt(i: int)
    | JFloat(f: real)
    | JStr(s: string)
    | JArr(items: seq<Json>)
    | JObj(fields: map<string, Json>)

  /** Python truthiness: what `if x:` and `not x` test. */
  predicate Truthy(j: Json) {
    match j
    case JNull => false
    case JBool(b) => b
    case JInt(i) => i != 0
    case JFloat(f) => f != 0.0
    case JStr(s) => s != ""
    case JArr(xs) => xs != []
    case JObj(m) => m != map[]
  }

  /** Python's `d.get(key)` on a decoded value that is a dict; `None` when the
      key is absent or the value is not a dict. */
  function Get(j: Json, key: string): Option<Json> {
    if j.JObj? && key in j.fields then Some(j.fields[key]) else None
  }

  /** The kind of exception a Python call raised. Only its kind matters to the
      model; its text `str(e)` comes from `Py.describe`. */
  datatype Fault =
    | DecodeError        // json.JSONDecodeError
    | NotAMapping        // `f(**params)` with params not a dict
    | BadKeywords        // `f(**params)` with a missing or unexpected keyword
    | NoAttribute        // AttributeError, e.g. `.lower()` on a non-string
    | NotComparable      // TypeError from `<` between unrelated types
    | NotIterable        // TypeError from unpacking `None` with `*`
    | RecursionLimit     // RecursionError

  /** Python's renderers, which the model leaves opaque: `str()` of floats and
      containers, `json.dumps`, the `:.2f` format, `float(s)` on a string and
      `str(e)` of an exception. */
  datatype Py = Py(
    repr: Json -> string,
    dumps: Json -> string,
    money: real -> string,
    parseFloat: string -> Option<real>,
    describe: Fault -> string)

  /** Python's `str(j)` (and `f"{j}"`): exact for strings, integers, booleans
      and `None`; the opaque renderer for the rest. */
  function Str(py: Py, j: Json): string {
    match j
    case JNull => "None"
    case JBool(b) => if b then "True" else "False"
    case JInt(i) => IntToDecimal(i)
    case JStr(s) => s
    case _ => py.repr(j)
  }

  /** A Python function called as `f(**params)` with a decoded dict of
      keyword arguments: its result, or the fault it raised. */
  type ToolFn = map<string, Json> -> Result<Json, Fault>

  /** The keyword arguments bind: the tools have no defaults and no
      `**kwargs`, so the call succeeds in binding exactly when the keywords
      are the declared parameters. */
  predicate Binds(args: map<string, Json>, params: set<string>) {
    args.Keys == params
  }
}
