/** Failure-compatible wrappers shared by every module of the model. */
module Wrappers {

  /** A value that may be absent, as Python's `None` or a missing key. */
  datatype Option<+T> = None | Some(value: T)

  /** The outcome of an operation that may raise: a value or the error raised. */
  datatype Result<+T, +E> = Success(value: T) | Failure(error: E)

  /** `d.get(k, default)` on a Python dict. */
  function GetOr<K, V>(m: map<K, V>, k: K, default: V): (v: V)
    ensures k in m ==> v == m[k]
    ensures k !in m ==> v == default
  {
    if k in m then m[k] else default
  }
}
