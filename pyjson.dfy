/**
 * JSON values as Python's json module decodes them (None, bool, number,
 * str, list, dict), together with the few Python operations the tracker
 * applies to them: truth testing, `== 0`, `== 1`, `dict.get`, `float()`,
 * the `in` operator and multiplication by a float.
 */
module PyJson {
  import opened Wrappers

  datatype Json =
    | JNull
    | JBool(b: bool)
    | JNum(n: real)
    | JStr(s: string)
    | JArr(items: seq<Json>)
    | JObj(fields: map<string, Json>)

  /** The Python exceptions that can leave the modelled code. */
  datatype PyError =
    | KeyError(key: string)
    | TypeError
    | UnboundLocalError(name: string)
    | JsonDecodeError

  /** Python's `bool(v)`: None, False, zero and empty containers are false. */
  predicate Truthy(v: Json) {
    match v
    case JNull => false
    case JBool(b) => b
    case JNum(n) => n != 0.0
    case JStr(s) => |s| > 0
    case JArr(items) => |items| > 0
    case JObj(fields) => |fields| > 0
  }

  /** Python's `v == i` for an integer `i`: True and False compare as 1 and 0. */
  predicate EqualsInt(v: Json, i: int) {
    match v
    case JNum(n) => n == i as real
    case JBool(b) => (if b then 1 else 0) == i
    case _ => false
  }

  /** `d.get(k)`: the value under `k`, or None when `k` is absent. */
  function Get(d: map<string, Json>, k: string): Json {
    if k in d then d[k] else JNull
  }

  /**
   * `float(v)`, with None standing for the TypeError or ValueError it raises.
   * Text is never converted (see README, "Left out").
   */
  function ToFloat(v: Json): (r: Option<real>)
    ensures r.Some? <==> v.JNum? || v.JBool?
    ensures v.JNum? ==> r == Some(v.n)
  {
    match v
    case JNum(n) => Some(n)
    case JBool(b) => Some(if b then 1.0 else 0.0)
    case _ => None
  }

  /** `k in s` for two strings: `k` occurs as a contiguous part of `s`. */
  predicate IsSubstring(k: string, s: string)
    decreases |s|
  {
    k <= s || (|s| > 0 && IsSubstring(k, s[1..]))
  }

  /** `v * .000001`: a number or a boolean scaled by one millionth; anything else raises TypeError. */
  function TimesMicro(v: Json): (r: Result<real, PyError>)
    ensures r.Ok? <==> v.JNum? || v.JBool?
    ensures r.Ok? ==> r.value * 1000000.0 == ToFloat(v).value
    ensures r.Err? ==> r.error == TypeError
  {
    match v
    case JNum(n) => Ok(n / 1000000.0)
    case JBool(b) => Ok(if b then 1.0 / 1000000.0 else 0.0)
    case _ => Err(TypeError)
  }
}
