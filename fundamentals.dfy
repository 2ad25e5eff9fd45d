/** Values read from the market-data provider, and the defensive numeric
    extraction that both screener variants apply to them. */
module Fundamentals {

  datatype Option<+T> = None | Some(value: T)

  /** One value of the provider's loosely typed `info` record.
      VNum stands for every value that Python's float() accepts (an int, a
      float, a bool or a numeric string), together with the number it gives;
      VStr is text that float() rejects (sector, name, currency);
      VBad is any other value that float() rejects (a list, a dict, ...). */
  datatype Val =
    | VNone
    | VNum(num: real)
    | VStr(str: string)
    | VBad

  /** The `info` dictionary: absent keys are absent from the map. */
  type Info = map<string, Val>

  /** `info.get(key, default)` */
  function Get(info: Info, key: string, default: Val): Val
  {
    if key in info then info[key] else default
  }

  /** What float(v) gives, or None when it raises ValueError/TypeError. */
  function ToFloat(v: Val): (r: Option<real>)
    ensures r.Some? <==> v.VNum?
    ensures r.Some? ==> r.value == v.num
  {
    match v
    case VNum(x) => Some(x)
    case _ => None
  }

  /** `get_safe_float(info, key, reject_value)`: the number stored under
      `key`, or the caller's sentinel when the key is absent, the value is
      None or float() refuses it. It never fails. */
  function SafeFloat(info: Info, key: string, reject: real): (r: real)
    ensures key !in info ==> r == reject
    ensures key in info && info[key].VNum? ==> r == info[key].num
    ensures key in info && !info[key].VNum? ==> r == reject
  {
    var v := Get(info, key, VNone);
    if v.VNone? then reject
    else match ToFloat(v)
      case Some(x) => x
      case None => reject
  }

  /** The sentinel comes back only when the record holds no number under the
      key, or holds the sentinel itself. */
  lemma SafeFloatSentinel(info: Info, key: string, reject: real)
    ensures SafeFloat(info, key, reject) == reject
            <==> (key !in info || !info[key].VNum? || info[key].num == reject)
    ensures SafeFloat(info, key, reject) != reject ==> key in info && info[key] == VNum(SafeFloat(info, key, reject))
  {
  }
}
