/**
 * Dynamically typed Python values as the host hands them to the scripts:
 * the `inverters` dictionaries, weather fields and forecast lists whose
 * entries may be of any type.
 */
module PyData {
  import opened Common

  datatype Key = KInt(i: int) | KStr(s: string)

  datatype Value =
    | VNone
    | VBool(b: bool)
    | VInt(i: int)
    | VFloat(x: real)
    | VStr(s: string)
    | VList(items: seq<Value>)
    | VDict(entries: map<Key, Value>)

  /**
   * `isinstance(v, (int, float))`. Python's bool is a subclass of int, so
   * True and False pass and read as 1.0 and 0.0.
   */
  function AsNumber(v: Value): (r: Option<real>)
    ensures r.Some? <==> (v.VBool? || v.VInt? || v.VFloat?)
    ensures v.VFloat? ==> r == Some(v.x)
    ensures v.VInt? ==> r == Some(v.i as real)
  {
    match v
    case VBool(b) => Some(if b then 1.0 else 0.0)
    case VInt(i) => Some(i as real)
    case VFloat(x) => Some(x)
    case _ => None
  }

  /** `d.get(k, default)` on a plain Python dict. */
  function DictGet(d: map<Key, Value>, k: Key, default: Value): (r: Value)
    ensures k in d ==> r == d[k]
    ensures k !in d ==> r == default
  {
    if k in d then d[k] else default
  }

  /** Python truthiness: None, False, zero and empty containers are false. */
  predicate Truthy(v: Value)
  {
    match v
    case VNone => false
    case VBool(b) => b
    case VInt(i) => i != 0
    case VFloat(x) => x != 0.0
    case VStr(s) => |s| > 0
    case VList(items) => |items| > 0
    case VDict(entries) => |entries| > 0
  }
}
