/** Python values as the integration's payloads, stored data and runtime
    dictionaries hold them (JSON-shaped), with Python's truthiness and `str()`. */
module PyValue {
  import opened Wrappers
  import opened Strings

  datatype Value =
    | Null
    | Bool(b: bool)
    | Int(i: int)
    | Float(text: string, isZero: bool)  // `text` is Python's str() of the float
    | Str(s: string)
    | List(items: seq<Value>)
    | Dict(entries: map<string, Value>)

  /** Python truthiness (`if v:` / `v or default`). */
  predicate Truthy(v: Value)
  {
    match v
    case Null => false
    case Bool(b) => b
    case Int(i) => i != 0
    case Float(_, z) => !z
    case Str(s) => s != ""
    case List(xs) => xs != []
    case Dict(m) => m != map[]
  }

  /** `str(v)`; a list or dict is rendered as a fixed marker, not as Python's repr. */
  function ToStr(v: Value): string
  {
    match v
    case Null => "None"
    case Bool(b) => if b then "True" else "False"
    case Int(i) => IntToString(i)
    case Float(t, _) => t
    case Str(s) => s
    case List(_) => "[...]"
    case Dict(_) => "{...}"
  }

  /** `d.get(k)`. */
  function Get(d: map<string, Value>, k: string): Option<Value>
  {
    if k in d then Some(d[k]) else None
  }

  /** `d.get(k, default)`. */
  function GetOr(d: map<string, Value>, k: string, default: Value): Value
  {
    if k in d then d[k] else default
  }

  /** `str(d.get(k) or "").strip()`: the text of an optional payload field. */
  function FieldText(d: map<string, Value>, k: string): string
  {
    var v := GetOr(d, k, Null);
    Strip(if Truthy(v) then ToStr(v) else "")
  }
}
