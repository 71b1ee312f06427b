/**
 * Decoded JSON values as the Python code sees them after `json.loads`, with
 * the Python operations the add-on applies to them: truthiness, `isinstance(x,
 * (int, float))`, `key in x` and `x.get(key, default)`.  Where Python raises
 * (`in` on a number, `.get` on a list, `.strip()` on a non-string) the helper
 * returns `None`.
 */
module Json {
  import opened Wrappers
  import opened Text

  /** JSON numbers are exact reals: integer and float literals are not told apart. */
  datatype JValue =
    | JNull
    | JBool(b: bool)
    | JNum(n: real)
    | JStr(s: string)
    | JArr(elems: seq<JValue>)
    | JObj(fields: map<string, JValue>)

  /** Python's `bool(v)`. */
  predicate Truthy(v: JValue) {
    match v
    case JNull => false
    case JBool(b) => b
    case JNum(n) => n != 0.0
    case JStr(s) => s != ""
    case JArr(e) => e != []
    case JObj(f) => f != map[]
  }

  /** `isinstance(v, (int, float))`; Python's `bool` is a subclass of `int`. */
  predicate IsNumber(v: JValue) {
    v.JNum? || v.JBool?
  }

  /** The numeric value of a number (`True` is 1, `False` is 0). */
  function NumValue(v: JValue): real
    requires IsNumber(v)
  {
    if v.JNum? then v.n else if v.b then 1.0 else 0.0
  }

  /** Python's `abs` on a number. */
  function Abs(x: real): (r: real)
    ensures r >= 0.0 && (r == x || r == -x)
  {
    if x < 0.0 then -x else x
  }

  /** The values `in` accepts on its right: dicts, lists and strings. */
  predicate IsContainer(c: JValue) {
    c.JObj? || c.JArr? || c.JStr?
  }

  /**
   * `key in c`: the keys of a dict, the elements of a list, the substrings of
   * a str.  Any other value raises TypeError (`None`).
   */
  function In(key: string, c: JValue): (r: Option<bool>)
    ensures r.Some? <==> IsContainer(c)
  {
    match c
    case JObj(f) => Some(key in f)
    case JArr(e) => Some(JStr(key) in e)
    case JStr(s) => Some(Contains(s, key))
    case _ => None
  }

  /** `d.get(key, default)` on a dict. */
  function Field(d: map<string, JValue>, key: string, default: JValue): JValue {
    if key in d then d[key] else default
  }

  /** `c.get(key, default)`: only a dict has the method (`None`: AttributeError). */
  function Get(c: JValue, key: string, default: JValue): Option<JValue> {
    if c.JObj? then Some(Field(c.fields, key, default)) else None
  }

  /** `v.strip()`: only a str has the method (`None`: AttributeError). */
  function StripText(v: JValue): Option<string> {
    if v.JStr? then Some(Strip(v.s)) else None
  }

  /** `v.upper()`: only a str has the method (`None`: AttributeError). */
  function UpperText(v: JValue): Option<string> {
    if v.JStr? then Some(Upper(v.s)) else None
  }
}
