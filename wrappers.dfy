/** Failure-carrying values shared by the whole model, and the two idioms of
    the source that every module uses: re-raising an exception under a fixed
    message prefix, and `dict.get(key, default)`. */
module Wrappers {

  datatype Option<+T> = None | Some(value: T)

  datatype Result<+T, +E> = Ok(value: T) | Err(error: E)

  /** `except Exception as e: raise Exception(prefix + str(e))` around a
      computation whose outcome is `r`: a value passes through untouched, an
      error message gains the prefix and nothing else. */
  function WithPrefix<T>(prefix: string, r: Result<T, string>): (w: Result<T, string>)
    ensures w.Ok? <==> r.Ok?
    ensures r.Ok? ==> w == r
    ensures r.Err? ==> |w.error| == |prefix| + |r.error|
    ensures r.Err? ==> w.error[..|prefix|] == prefix && w.error[|prefix|..] == r.error
  {
    match r
    case Ok(_) => r
    case Err(e) => Err(prefix + e)
  }

  /** `m.get(key, default)` */
  function GetOr<K, V>(m: map<K, V>, key: K, default: V): (v: V)
    ensures key in m ==> v == m[key]
    ensures key !in m ==> v == default
  {
    if key in m then m[key] else default
  }
}
